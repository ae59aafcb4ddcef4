/** Stable sorting by a comparison, and the orders the contracts sort by. */
module Sorting {

  /** A comparison that sorts: ties are allowed, and being tied is transitive. */
  ghost predicate StrictWeak<T(!new)>(less: (T, T) -> bool) {
    && (forall a, b :: less(a, b) ==> !less(b, a))
    && (forall a, b, c :: less(a, c) ==> less(a, b) || less(b, c))
  }

  ghost predicate StrictTotal<T(!new)>(less: (T, T) -> bool) {
    && StrictWeak(less)
    && (forall a, b :: less(a, b) || a == b || less(b, a))
  }

  /** Nothing stands behind an element it should precede. */
  ghost predicate InOrder<T>(list: seq<T>, less: (T, T) -> bool) {
    forall i, j | 0 <= i < j < |list| :: !less(list[j], list[i])
  }

  ghost predicate Increasing<T>(list: seq<T>, less: (T, T) -> bool) {
    forall i, j | 0 <= i < j < |list| :: less(list[i], list[j])
  }

  // ------------------------------------------------------------------- sorting

  /** Put `x` behind everything it does not precede. */
  function Insert<T>(x: T, list: seq<T>, less: (T, T) -> bool): seq<T> {
    if list == [] then [x]
    else if less(x, list[|list| - 1]) then Insert(x, list[..|list| - 1], less) + [list[|list| - 1]]
    else list + [x]
  }

  /** The stable sort. */
  function Sort<T>(list: seq<T>, less: (T, T) -> bool): seq<T> {
    if list == [] then [] else Insert(list[|list| - 1], Sort(list[..|list| - 1], less), less)
  }

  lemma {:induction false} InsertKeeps<T>(x: T, list: seq<T>, less: (T, T) -> bool)
    ensures multiset(Insert(x, list, less)) == multiset(list) + multiset{x}
    ensures |Insert(x, list, less)| == |list| + 1
  {
    if list != [] {
      assert list == list[..|list| - 1] + [list[|list| - 1]];
      InsertKeeps(x, list[..|list| - 1], less);
    }
  }

  /** Sorting loses nothing and adds nothing. */
  lemma {:induction false} SortKeeps<T>(list: seq<T>, less: (T, T) -> bool)
    ensures multiset(Sort(list, less)) == multiset(list)
    ensures |Sort(list, less)| == |list|
  {
    if list != [] {
      assert list == list[..|list| - 1] + [list[|list| - 1]];
      SortKeeps(list[..|list| - 1], less);
      InsertKeeps(list[|list| - 1], Sort(list[..|list| - 1], less), less);
    }
  }

  lemma {:induction false} InsertOrdered<T(!new)>(x: T, list: seq<T>, less: (T, T) -> bool)
    requires StrictWeak(less) && InOrder(list, less)
    ensures InOrder(Insert(x, list, less), less)
  {
    if list == [] {
    } else if less(x, list[|list| - 1]) {
      var init, last := list[..|list| - 1], list[|list| - 1];
      InsertOrdered(x, init, less);
      InsertKeeps(x, init, less);
      var into := Insert(x, init, less);
      forall i | 0 <= i < |into| ensures !less(last, into[i]) {
        assert into[i] in multiset(into);
        assert into[i] == x || into[i] in init;
      }
    } else {
      var last := list[|list| - 1];
      forall i | 0 <= i < |list| ensures !less(x, list[i]) {
        assert !less(last, list[i]);
      }
    }
  }

  lemma {:induction false} SortOrders<T(!new)>(list: seq<T>, less: (T, T) -> bool)
    requires StrictWeak(less)
    ensures InOrder(Sort(list, less), less)
  {
    if list != [] {
      SortOrders(list[..|list| - 1], less);
      InsertOrdered(list[|list| - 1], Sort(list[..|list| - 1], less), less);
    }
  }

  lemma SortMembers<T(!new)>(list: seq<T>, less: (T, T) -> bool)
    ensures forall x :: x in Sort(list, less) <==> x in list
  {
    SortKeeps(list, less);
    forall x ensures x in Sort(list, less) <==> x in list {
      assert x in Sort(list, less) <==> x in multiset(Sort(list, less));
      assert x in list <==> x in multiset(list);
    }
  }

  lemma EmptyOrNot<T(!new)>(list: seq<T>)
    ensures list == [] || exists x :: x in list
  {
    if list != [] {
      assert list[0] in list;
    }
  }

  /** Increasing lists of the same elements are the same list. */
  lemma {:induction false} IncreasingUnique<T(!new)>(a: seq<T>, b: seq<T>, less: (T, T) -> bool)
    requires StrictWeak(less) && Increasing(a, less) && Increasing(b, less)
    requires forall x :: x in a <==> x in b
    ensures a == b
  {
    if a == [] || b == [] {
      EmptyOrNot(a);
      EmptyOrNot(b);
    } else {
      assert a[0] in b && b[0] in a;
      assert a[0] == b[0];
      forall x ensures x in a[1..] <==> x in b[1..] {
        assert x in a[1..] ==> x in a && less(a[0], x);
        assert x in b[1..] ==> x in b && less(b[0], x);
        assert x in a <==> x == a[0] || x in a[1..];
        assert x in b <==> x == b[0] || x in b[1..];
      }
      IncreasingUnique(a[1..], b[1..], less);
      assert a == [a[0]] + a[1..] && b == [b[0]] + b[1..];
    }
  }

  /** Any two elements of the list can be told apart. */
  ghost predicate Separated<T>(list: seq<T>, less: (T, T) -> bool) {
    forall i, j | 0 <= i < j < |list| :: less(list[i], list[j]) || less(list[j], list[i])
  }

  lemma SortIncreases<T(!new)>(list: seq<T>, less: (T, T) -> bool)
    requires StrictWeak(less) && Separated(list, less)
    ensures Increasing(Sort(list, less), less)
  {
    SortKeeps(list, less);
    SortOrders(list, less);
    forall x | x in multiset(list) ensures multiset(list)[x] == 1 { AppearsOnce(list, less, x); }
    forall x, y | x in multiset(list) && y in multiset(list) && x != y ensures less(x, y) || less(y, x) {
      var i :| 0 <= i < |list| && list[i] == x;
      var j :| 0 <= j < |list| && list[j] == y;
    }
    OrderedIncreases(Sort(list, less), less);
  }

  /** Elements that never tie sort into one list, whatever order they came in. */
  lemma SortSame<T(!new)>(a: seq<T>, b: seq<T>, less: (T, T) -> bool)
    requires StrictWeak(less) && Separated(a, less) && Separated(b, less)
    requires forall x :: x in a <==> x in b
    ensures Sort(a, less) == Sort(b, less)
  {
    SortIncreases(a, less);
    SortIncreases(b, less);
    SortMembers(a, less);
    SortMembers(b, less);
    IncreasingUnique(Sort(a, less), Sort(b, less), less);
  }

  lemma AppearsOnce<T(!new)>(a: seq<T>, less: (T, T) -> bool, x: T)
    requires StrictWeak(less) && Separated(a, less) && x in a
    ensures multiset(a)[x] == 1
  {
    var k :| 0 <= k < |a| && a[k] == x;
    assert a == a[..k] + [x] + a[k + 1..];
    assert x !in a[..k] && x !in a[k + 1..];
  }

  lemma OrderedIncreases<T(!new)>(s: seq<T>, less: (T, T) -> bool)
    requires StrictWeak(less) && InOrder(s, less)
    requires forall x | x in multiset(s) :: multiset(s)[x] == 1
    requires forall x, y | x in multiset(s) && y in multiset(s) && x != y :: less(x, y) || less(y, x)
    ensures Increasing(s, less)
  {
    forall i, j | 0 <= i < j < |s| ensures less(s[i], s[j]) {
      assert s == s[..j] + s[j..];
      assert s[i] in s[..j] && s[j] in s[j..];
      assert s[i] in multiset(s) && s[j] in multiset(s);
    }
  }

  // --------------------------------------------------------------- deduplication

  /** Drop every element equal to the one before it. */
  function Dedup<T(==)>(list: seq<T>): seq<T> {
    if |list| < 2 then list
    else if list[|list| - 1] == list[|list| - 2] then Dedup(list[..|list| - 1])
    else Dedup(list[..|list| - 1]) + [list[|list| - 1]]
  }

  lemma {:induction false} DedupMembers<T(!new)>(list: seq<T>)
    ensures forall x :: x in Dedup(list) <==> x in list
  {
    if |list| >= 2 {
      var init, last := list[..|list| - 1], list[|list| - 1];
      DedupMembers(init);
      assert init[|init| - 1] in init;
      assert list == init + [last];
    }
  }

  /** Deduplicating an ordered list leaves it increasing. */
  lemma {:induction false} DedupIncreases<T(!new)>(list: seq<T>, less: (T, T) -> bool)
    requires StrictTotal(less) && InOrder(list, less)
    ensures Increasing(Dedup(list), less)
  {
    if |list| >= 2 {
      var init, last := list[..|list| - 1], list[|list| - 1];
      DedupIncreases(init, less);
      DedupMembers(init);
      var kept := Dedup(init);
      if last != list[|list| - 2] {
        forall i | 0 <= i < |kept| ensures less(kept[i], last) {
          assert kept[i] in init;
          var k :| 0 <= k < |init| && init[k] == kept[i];
          assert less(list[|list| - 2], last);
          assert !less(list[|list| - 2], init[k]);
        }
      }
    }
  }

  /** A sorted, deduplicated list depends only on what is in it. */
  lemma SortedSetUnique<T(!new)>(a: seq<T>, b: seq<T>, less: (T, T) -> bool)
    requires StrictTotal(less) && forall x :: x in a <==> x in b
    ensures Dedup(Sort(a, less)) == Dedup(Sort(b, less))
  {
    SortOrders(a, less);
    SortOrders(b, less);
    SortMembers(a, less);
    SortMembers(b, less);
    DedupIncreases(Sort(a, less), less);
    DedupIncreases(Sort(b, less), less);
    DedupMembers(Sort(a, less));
    DedupMembers(Sort(b, less));
    IncreasingUnique(Dedup(Sort(a, less)), Dedup(Sort(b, less)), less);
  }

  // ------------------------------------------------------------------ filtering

  function Filter<T>(list: seq<T>, keep: T -> bool): seq<T> {
    if list == [] then []
    else Filter(list[..|list| - 1], keep) + if keep(list[|list| - 1]) then [list[|list| - 1]] else []
  }

  lemma {:induction false} FilterExact<T>(list: seq<T>, keep: T -> bool, x: T)
    ensures multiset(Filter(list, keep))[x] == if keep(x) then multiset(list)[x] else 0
  {
    if list != [] {
      assert list == list[..|list| - 1] + [list[|list| - 1]];
      FilterExact(list[..|list| - 1], keep, x);
    }
  }

  lemma FilterMembers<T(!new)>(list: seq<T>, keep: T -> bool)
    ensures forall x :: x in Filter(list, keep) <==> x in list && keep(x)
  {
    forall x ensures x in Filter(list, keep) <==> x in list && keep(x) {
      FilterExact(list, keep, x);
      assert x in list <==> x in multiset(list);
      assert x in Filter(list, keep) <==> x in multiset(Filter(list, keep));
    }
  }

  /** More is kept by a weaker test, and strictly more when some element passes only it. */
  lemma {:induction false} FilterGrows<T>(list: seq<T>, p: T -> bool, q: T -> bool)
    requires forall x | x in list && p(x) :: q(x)
    ensures |Filter(list, p)| <= |Filter(list, q)|
    ensures (exists x | x in list :: q(x) && !p(x)) ==> |Filter(list, p)| < |Filter(list, q)|
  {
    if list != [] {
      var init, last := list[..|list| - 1], list[|list| - 1];
      assert forall x :: x in list <==> x in init || x == last by { assert list == init + [last]; }
      FilterGrows(init, p, q);
    }
  }

  // ------------------------------------------------------- listing a finite set

  predicate IsLeast<T(!new, ==)>(x: T, among: set<T>, less: (T, T) -> bool) {
    x in among && forall y | y in among && y != x :: less(x, y)
  }

  lemma LeastExists<T(!new)>(among: set<T>, less: (T, T) -> bool) returns (x: T)
    requires StrictTotal(less) && among != {}
    ensures IsLeast(x, among, less)
    decreases among
  {
    x :| x in among;
    if among != {x} {
      var y := LeastExists(among - {x}, less);
      if less(y, x) {
        x := y;
      }
    }
  }

  /** A set in increasing order, as an ordered collection hands its elements out. */
  function Listing<T(!new, ==)>(among: set<T>, less: (T, T) -> bool): (list: seq<T>)
    requires StrictTotal(less)
    ensures Increasing(list, less)
    ensures forall x :: x in list <==> x in among
    decreases among
  {
    if among == {} then []
    else
      assert exists x :: IsLeast(x, among, less) by { var x := LeastExists(among, less); }
      var x :| x in among && IsLeast(x, among, less);
      [x] + Listing(among - {x}, less)
  }

  // --------------------------------------------------------------------- orders

  predicate TextBefore(a: string, b: string) {
    b != "" && (a == "" || a[0] < b[0] || (a[0] == b[0] && TextBefore(a[1..], b[1..])))
  }

  lemma {:induction false} TextAsymmetric(a: string, b: string)
    ensures !(TextBefore(a, b) && TextBefore(b, a))
    ensures TextBefore(a, b) || a == b || TextBefore(b, a)
  {
    if a != "" && b != "" {
      TextAsymmetric(a[1..], b[1..]);
      assert a == [a[0]] + a[1..] && b == [b[0]] + b[1..];
    }
  }

  /** They agree up to `n`, where `a` ends or has the lower character. */
  predicate Splits(a: string, b: string, n: nat) {
    n <= |a| && n < |b| && a[..n] == b[..n] && (n == |a| || a[n] < b[n])
  }

  /** The order is lexicographic. */
  lemma {:induction false} TextLexical(a: string, b: string)
    ensures TextBefore(a, b) <==> exists n: nat :: Splits(a, b, n)
  {
    if a == "" || b == "" {
      assert b != "" ==> Splits("", b, 0);
    } else {
      TextLexical(a[1..], b[1..]);
      if n: nat :| Splits(a[1..], b[1..], n) {
        if a[0] == b[0] {
          assert a[..n + 1] == [a[0]] + a[1..][..n] && b[..n + 1] == [b[0]] + b[1..][..n];
          assert Splits(a, b, n + 1);
        }
      }
      if a[0] < b[0] {
        assert Splits(a, b, 0);
      }
      if n: nat :| Splits(a, b, n) {
        if n > 0 {
          assert a[..n][0] == a[0] && b[..n][0] == b[0];
          assert a[1..][..n - 1] == a[..n][1..] && b[1..][..n - 1] == b[..n][1..];
          assert Splits(a[1..], b[1..], n - 1);
        }
      }
    }
  }

  lemma {:induction false} TextTransits(a: string, b: string, c: string)
    ensures TextBefore(a, c) ==> TextBefore(a, b) || TextBefore(b, c)
  {
    if a != "" && b != "" && c != "" {
      TextTransits(a[1..], b[1..], c[1..]);
    }
  }

  lemma TextTotal()
    ensures StrictTotal(TextBefore)
  {
    forall a, b ensures TextBefore(a, b) ==> !TextBefore(b, a) { TextAsymmetric(a, b); }
    forall a, b ensures TextBefore(a, b) || a == b || TextBefore(b, a) { TextAsymmetric(a, b); }
    forall a, b, c ensures TextBefore(a, c) ==> TextBefore(a, b) || TextBefore(b, c) { TextTransits(a, b, c); }
  }

  /** An exact revision of a named thing. */
  datatype Ref = Ref(id: string, revision: nat)

  predicate RefBefore(a: Ref, b: Ref) {
    TextBefore(a.id, b.id) || (a.id == b.id && a.revision < b.revision)
  }

  lemma RefTotal()
    ensures StrictTotal(RefBefore)
  {
    TextTotal();
  }
}
