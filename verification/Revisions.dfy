/** When a merge link is tied: the partition merged away and the one it points to carry
    the same revision. */
module Revisions {
  import opened Options
  import opened RowOrder
  import opened Tables
  import opened Topology
  import opened Invariants

  predicate Linked(parts: map<Id, Partition>, p: Id) {
    p in parts && parts[p].mergedInto.Some? && parts[p].mergedInto.value in parts
  }

  predicate Tied(parts: map<Id, Partition>, p: Id) {
    Linked(parts, p) && parts[parts[p].mergedInto.value].revision == parts[p].revision
  }

  /** Every merge link goes strictly up. */
  ghost predicate Strict(parts: map<Id, Partition>) {
    forall p | Linked(parts, p) :: parts[p].revision < parts[parts[p].mergedInto.value].revision
  }

  lemma StrictUntied(parts: map<Id, Partition>, revision: nat)
    requires MergeOrdered(parts, revision)
    ensures Strict(parts) <==> forall p :: !Tied(parts, p)
  {
    if forall p :: !Tied(parts, p) {
      forall p | Linked(parts, p) ensures parts[p].revision < parts[parts[p].mergedInto.value].revision {
        assert !Tied(parts, p);
      }
    }
  }

  lemma TiedNotStrict(parts: map<Id, Partition>, p: Id)
    requires Tied(parts, p)
    ensures !Strict(parts)
  {
  }

  // ---------------------------------------------------------------- revising rows

  /** Active partitions in `names` get the next revision, `link` is added and nothing else
      that exists changes. */
  ghost predicate Revised(parts: map<Id, Partition>, parts': map<Id, Partition>, revision: nat, names: set<Id>,
                          link: Option<(Id, Id)>) {
    && (forall p | p in parts :: p in parts' && RowRevised(parts[p], parts'[p], revision, p in names, link, p))
    && (forall p | p in parts' && p !in parts :: parts'[p].mergedInto.None?)
    && (link.Some? ==> link.value.0 in names * parts.Keys && link.value.1 in names * parts.Keys)
  }

  ghost predicate RowRevised(row: Partition, row': Partition, revision: nat, revised: bool, link: Option<(Id, Id)>,
                             p: Id) {
    if revised then
      && row.active && row'.revision == revision + 1
      && row'.mergedInto == (if link.Some? && link.value.0 == p then Some(link.value.1) else row.mergedInto)
    else row' == row
  }

  /** A link is tied after the call exactly when the call made it, or it was tied before and
      the call did not revise its target. */
  lemma RevisedTied(parts: map<Id, Partition>, parts': map<Id, Partition>, revision: nat, names: set<Id>,
                    link: Option<(Id, Id)>, p: Id)
    requires MergeOrdered(parts, revision) && Revised(parts, parts', revision, names, link)
    ensures Tied(parts', p) <==>
      || (link.Some? && link.value.0 == p)
      || (Tied(parts, p) && parts[p].mergedInto.value !in names)
  {
    if p in parts {
      assert RowRevised(parts[p], parts'[p], revision, p in names, link, p);
    }
    if link.Some? && link.value.0 == p {
      var q := link.value.1;
      assert RowRevised(parts[q], parts'[q], revision, q in names, link, q);
    } else if Linked(parts, p) {
      var q := parts[p].mergedInto.value;
      assert RowRevised(parts[q], parts'[q], revision, q in names, link, q);
    }
  }

  lemma UnchangedRevised(parts: map<Id, Partition>, revision: nat)
    ensures Revised(parts, parts, revision, {}, None)
  {
  }

  lemma AddedRevises(parts: map<Id, Partition>, revision: nat, name: Id, row: Partition)
    requires name !in parts && row.mergedInto.None?
    ensures Revised(parts, parts[name := row], revision, {}, None)
  {
  }

  lemma OneRevises(parts: map<Id, Partition>, revision: nat, name: Id, row: Partition)
    requires ActivePartition(parts, name) && row.revision == revision + 1 && row.mergedInto == parts[name].mergedInto
    ensures Revised(parts, parts[name := row], revision, {name}, None)
  {
  }

  lemma MergedRevises(parts: map<Id, Partition>, revision: nat, source: Id, target: Id, a: Partition, b: Partition)
    requires source != target && ActivePartition(parts, source) && ActivePartition(parts, target)
    requires a.mergedInto == Some(target) && a.revision == revision + 1
    requires b.mergedInto == parts[target].mergedInto && b.revision == revision + 1
    ensures Revised(parts, parts[source := a][target := b], revision, {source, target}, Some((source, target)))
  {
  }

  // ---------------------------------------------------------------- histories

  /** What one step did to the partitions that existed: those it revised and the link it added. */
  datatype Change = Change(names: set<Id>, link: Option<(Id, Id)>)

  /** The partition table before and after each change, with the revision counter. */
  ghost predicate Chronicle(tables: seq<map<Id, Partition>>, counters: seq<nat>, changes: seq<Change>) {
    && |tables| == |counters| == |changes| + 1 && tables[0] == map[]
    && (forall i | 0 <= i < |changes| :: ChangedAt(tables, counters, changes, i))
    && MergeOrdered(tables[|changes|], counters[|changes|])
  }

  ghost predicate ChangedAt(tables: seq<map<Id, Partition>>, counters: seq<nat>, changes: seq<Change>, i: nat)
    requires |tables| == |counters| == |changes| + 1 && i < |changes|
  {
    && MergeOrdered(tables[i], counters[i])
    && Revised(tables[i], tables[i + 1], counters[i], changes[i].names, changes[i].link)
  }

  /** One more change continues a chronicle. */
  lemma ChronicleGrows(tables: seq<map<Id, Partition>>, counters: seq<nat>, changes: seq<Change>,
                       table: map<Id, Partition>, counter: nat, change: Change)
    requires Chronicle(tables, counters, changes) && MergeOrdered(table, counter)
    requires Revised(tables[|changes|], table, counters[|changes|], change.names, change.link)
    ensures Chronicle(tables + [table], counters + [counter], changes + [change])
  {
    var tables', counters', changes' := tables + [table], counters + [counter], changes + [change];
    forall i | 0 <= i < |changes'| ensures ChangedAt(tables', counters', changes', i) {
      if i < |changes| {
        assert ChangedAt(tables, counters, changes, i);
      }
    }
  }

  /** Change `i` merged `p` into `q`. */
  predicate MergedAt(changes: seq<Change>, i: nat, p: Id, q: Id) {
    i < |changes| && changes[i].link == Some((p, q))
  }

  /** No change after `i` and before `n` revised `q`. */
  predicate Unrevised(changes: seq<Change>, i: nat, n: nat, q: Id) {
    n <= |changes| && forall j | i < j < n :: q !in changes[j].names
  }

  lemma UnrevisedGrows(changes: seq<Change>, i: nat, n: nat, q: Id)
    requires i < n < |changes|
    ensures Unrevised(changes, i, n + 1, q) <==> Unrevised(changes, i, n, q) && q !in changes[n].names
  {
  }

  lemma LinkKept(parts: map<Id, Partition>, parts': map<Id, Partition>, revision: nat, names: set<Id>,
                 link: Option<(Id, Id)>, p: Id)
    requires MergeOrdered(parts, revision) && Revised(parts, parts', revision, names, link)
    ensures link.Some? && link.value.0 == p ==> p in parts' && parts'[p].mergedInto == Some(link.value.1)
    ensures p in parts && parts[p].mergedInto.Some? ==> p in parts' && parts'[p].mergedInto == parts[p].mergedInto
  {
    if p in parts {
      assert RowRevised(parts[p], parts'[p], revision, p in names, link, p);
    }
  }

  /** A partition merged away keeps pointing where it was merged. */
  lemma {:induction false} LinkStays(tables: seq<map<Id, Partition>>, counters: seq<nat>, changes: seq<Change>, n: nat,
                                     i: nat, p: Id, q: Id)
    requires Chronicle(tables, counters, changes) && i < n <= |changes| && MergedAt(changes, i, p, q)
    ensures p in tables[n] && tables[n][p].mergedInto == Some(q)
  {
    if i < n - 1 {
      LinkStays(tables, counters, changes, n - 1, i, p, q);
    }
    assert ChangedAt(tables, counters, changes, n - 1);
    LinkKept(tables[n - 1], tables[n], counters[n - 1], changes[n - 1].names, changes[n - 1].link, p);
  }

  lemma ChangeTied(tables: seq<map<Id, Partition>>, counters: seq<nat>, changes: seq<Change>, n: nat, p: Id)
    requires Chronicle(tables, counters, changes) && n < |changes|
    ensures Tied(tables[n + 1], p) <==>
      || (changes[n].link.Some? && changes[n].link.value.0 == p)
      || (Tied(tables[n], p) && tables[n][p].mergedInto.value !in changes[n].names)
  {
    assert ChangedAt(tables, counters, changes, n);
    RevisedTied(tables[n], tables[n + 1], counters[n], changes[n].names, changes[n].link, p);
  }

  lemma {:induction false} TiedFrom(tables: seq<map<Id, Partition>>, counters: seq<nat>, changes: seq<Change>, n: nat,
                                    p: Id) returns (i: nat, q: Id)
    requires Chronicle(tables, counters, changes) && n <= |changes| && Tied(tables[n], p)
    ensures i < n && MergedAt(changes, i, p, q) && Unrevised(changes, i, n, q)
  {
    assert n > 0;
    ChangeTied(tables, counters, changes, n - 1, p);
    var link := changes[n - 1].link;
    if link.Some? && link.value.0 == p {
      i, q := n - 1, link.value.1;
      assert link == Some((p, q));
    } else {
      i, q := TiedFrom(tables, counters, changes, n - 1, p);
      LinkStays(tables, counters, changes, n - 1, i, p, q);
      UnrevisedGrows(changes, i, n - 1, q);
    }
  }

  lemma {:induction false} TiedSince(tables: seq<map<Id, Partition>>, counters: seq<nat>, changes: seq<Change>, n: nat,
                                     i: nat, p: Id, q: Id)
    requires Chronicle(tables, counters, changes) && i < n <= |changes|
    requires MergedAt(changes, i, p, q) && Unrevised(changes, i, n, q)
    ensures Tied(tables[n], p)
  {
    ChangeTied(tables, counters, changes, n - 1, p);
    if i < n - 1 {
      UnrevisedGrows(changes, i, n - 1, q);
      TiedSince(tables, counters, changes, n - 1, i, p, q);
      LinkStays(tables, counters, changes, n - 1, i, p, q);
    }
  }

  /** Some change merged `p`, and none since then revised the partition it was merged into. */
  ghost predicate TieRecorded(changes: seq<Change>, p: Id) {
    exists i, q :: MergedAt(changes, i, p, q) && Unrevised(changes, i, |changes|, q)
  }

  /** Every merge was followed by a revision of its target. */
  ghost predicate AllRevisedAgain(changes: seq<Change>) {
    forall p :: !TieRecorded(changes, p)
  }

  /** `table` is where the changes lead from no partitions at all. */
  ghost predicate Recorded(table: map<Id, Partition>, counter: nat, changes: seq<Change>) {
    exists tables, counters :: Chronicle(tables, counters, changes) && tables[|changes|] == table
      && counters[|changes|] == counter
  }

  lemma NothingRecorded()
    ensures Recorded(map[], 0, [])
  {
    var tables: seq<map<Id, Partition>>, counters: seq<nat>, changes: seq<Change> := [map[]], [0], [];
    assert Chronicle(tables, counters, changes) && tables[|changes|] == map[] && counters[|changes|] == 0;
  }

  lemma RecordGrows(table: map<Id, Partition>, counter: nat, changes: seq<Change>, table': map<Id, Partition>,
                    counter': nat, change: Change)
    requires Recorded(table, counter, changes) && MergeOrdered(table', counter')
    requires Revised(table, table', counter, change.names, change.link)
    ensures Recorded(table', counter', changes + [change])
  {
    var tables, counters :| Chronicle(tables, counters, changes) && tables[|changes|] == table
      && counters[|changes|] == counter;
    ChronicleGrows(tables, counters, changes, table', counter', change);
    var tables', counters', changes' := tables + [table'], counters + [counter'], changes + [change];
    assert Chronicle(tables', counters', changes') && tables'[|changes'|] == table'
      && counters'[|changes'|] == counter';
  }

  /** A link is tied exactly when nothing has revised its target since the merge that made it. */
  lemma TiedRecorded(table: map<Id, Partition>, counter: nat, changes: seq<Change>, p: Id)
    requires Recorded(table, counter, changes)
    ensures Tied(table, p) <==> TieRecorded(changes, p)
  {
    var tables, counters :| Chronicle(tables, counters, changes) && tables[|changes|] == table
      && counters[|changes|] == counter;
    if Tied(table, p) {
      var i, q := TiedFrom(tables, counters, changes, |changes|, p);
    }
    if TieRecorded(changes, p) {
      var i, q :| MergedAt(changes, i, p, q) && Unrevised(changes, i, |changes|, q);
      TiedSince(tables, counters, changes, |changes|, i, p, q);
    }
  }

  /** Links all go strictly up exactly when the target of every merge was revised again. */
  lemma StrictRecorded(table: map<Id, Partition>, counter: nat, changes: seq<Change>)
    requires Recorded(table, counter, changes)
    ensures Strict(table) <==> AllRevisedAgain(changes)
  {
    var tables, counters :| Chronicle(tables, counters, changes) && tables[|changes|] == table
      && counters[|changes|] == counter;
    StrictUntied(table, counter);
    forall p ensures Tied(table, p) <==> TieRecorded(changes, p) {
      TiedRecorded(table, counter, changes, p);
    }
  }
}
