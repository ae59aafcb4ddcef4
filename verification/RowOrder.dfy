/** The order in which a query hands rows back.

    Every ORDER BY of the scheduler is a lexicographic comparison of two integer
    tiers, a time and finally the row id, so one key covers them all.  Because the
    id is the last component two distinct rows never tie. */
module RowOrder {

  type Id = nat

  datatype Rank = Rank(tier: int, minor: int, at: real, id: Id)

  predicate Before(a: Rank, b: Rank) {
    || a.tier < b.tier
    || (a.tier == b.tier && a.minor < b.minor)
    || (a.tier == b.tier && a.minor == b.minor && a.at < b.at)
    || (a.tier == b.tier && a.minor == b.minor && a.at == b.at && a.id < b.id)
  }

  /** Each row carries its own id, so ranks of distinct rows differ. */
  predicate Own(rows: map<Id, Rank>) {
    forall k | k in rows :: rows[k].id == k
  }

  predicate IsLeast(rows: map<Id, Rank>, among: set<Id>, k: Id)
    requires among <= rows.Keys
  {
    k in among && forall j | j in among && j != k :: Before(rows[k], rows[j])
  }

  lemma LeastExists(rows: map<Id, Rank>, among: set<Id>) returns (k: Id)
    requires among != {} && among <= rows.Keys && Own(rows)
    ensures IsLeast(rows, among, k)
    decreases among
  {
    k :| k in among;
    if among != {k} {
      var m := LeastExists(rows, among - {k});
      if Before(rows[m], rows[k]) {
        k := m;
      }
    }
  }

  function Least(rows: map<Id, Rank>, among: set<Id>): (k: Id)
    requires among != {} && among <= rows.Keys && Own(rows)
    ensures IsLeast(rows, among, k)
  {
    assert exists k :: IsLeast(rows, among, k) by { var k := LeastExists(rows, among); }
    var k :| k in among && IsLeast(rows, among, k);
    k
  }

  function ListFrom(rows: map<Id, Rank>, among: set<Id>): (list: seq<Id>)
    requires among <= rows.Keys && Own(rows)
    ensures |list| == |among|
    ensures forall k :: k in list <==> k in among
    decreases among
  {
    if among == {} then []
    else
      var k := Least(rows, among);
      [k] + ListFrom(rows, among - {k})
  }

  /** All rows, in order. */
  function Listing(rows: map<Id, Rank>): (list: seq<Id>)
    requires Own(rows)
    ensures |list| == |rows|
    ensures forall k :: k in list <==> k in rows
  {
    ListFrom(rows, rows.Keys)
  }

  lemma {:induction false} ListingSorted(rows: map<Id, Rank>, among: set<Id>, i: nat, j: nat)
    requires among <= rows.Keys && Own(rows)
    requires i < j < |ListFrom(rows, among)|
    ensures var list := ListFrom(rows, among);
      list[i] != list[j] && Before(rows[list[i]], rows[list[j]])
    decreases among
  {
    var k := Least(rows, among);
    var rest := ListFrom(rows, among - {k});
    assert ListFrom(rows, among) == [k] + rest;
    if i == 0 {
      assert rest[j - 1] in among - {k};
    } else {
      ListingSorted(rows, among - {k}, i - 1, j - 1);
    }
  }

  lemma Behind(list: seq<Id>, n: nat, h: Id) returns (j: nat)
    requires n <= |list| && h in list && h !in list[..n]
    ensures n <= j < |list| && list[j] == h
  {
    j :| j < |list| && list[j] == h;
    assert list[..n] + list[n..] == list;
  }

  /** Every row of a prefix of the listing is ahead of every row behind it. */
  lemma PrefixAhead(rows: map<Id, Rank>, n: nat, g: Id, h: Id)
    requires Own(rows) && n <= |Listing(rows)| && g in Listing(rows)[..n] && h in rows && h !in Listing(rows)[..n]
    ensures g in rows && Before(rows[g], rows[h])
  {
    var list := Listing(rows);
    var i: nat :| i < n && list[i] == g;
    var j := Behind(list, n, h);
    assert list[i] in list;
    ListingSorted(rows, rows.Keys, i, j);
  }

  lemma ListingDistinct(rows: map<Id, Rank>)
    requires Own(rows)
    ensures forall i, j | 0 <= i < j < |Listing(rows)| :: Listing(rows)[i] != Listing(rows)[j]
  {
    forall i, j | 0 <= i < j < |Listing(rows)| ensures Listing(rows)[i] != Listing(rows)[j] {
      ListingSorted(rows, rows.Keys, i, j);
    }
  }
}
