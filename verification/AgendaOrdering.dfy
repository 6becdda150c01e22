/** Ordering the rows and entries a read returns. */
module AgendaOrdering {
  import opened Wrappers
  import opened TaskRows
  import opened Agenda

  /** No two items share a key. */
  ghost predicate DistinctBy<T, K(!new)>(items: seq<T>, key: T -> K) {
    forall i, j :: 0 <= i < j < |items| ==> key(items[i]) != key(items[j])
  }

  /** Ascending order of start, timeless items last. */
  ghost predicate OrderedBy<T>(items: seq<T>, start: T -> Option<int>) {
    forall i, j :: 0 <= i < j < |items| ==> StartsNoLater(start(items[i]), start(items[j]))
  }

  lemma InsertedAt<T>(q: seq<T>, i: nat, x: T)
    requires i <= |q|
    ensures
      var r := q[..i] + [x] + q[i..];
      && |r| == |q| + 1
      && (forall j :: 0 <= j < |r| ==> r[j] == if j < i then q[j] else if j == i then x else q[j - 1])
  {
  }

  lemma InsertedItems<T>(q: seq<T>, i: nat, x: T)
    requires i <= |q|
    ensures forall y :: y in q[..i] + [x] + q[i..] <==> y in q || y == x
  {
    assert q == q[..i] + q[i..];
  }

  lemma InsertKeepsOrder<T>(q: seq<T>, i: nat, x: T, start: T -> Option<int>)
    requires i <= |q| && OrderedBy(q, start)
    requires forall j :: 0 <= j < i ==> StartsNoLater(start(q[j]), start(x))
    requires forall j :: i <= j < |q| ==> StartsNoLater(start(x), start(q[j]))
    ensures OrderedBy(q[..i] + [x] + q[i..], start)
  {
    InsertedAt(q, i, x);
  }

  lemma InsertKeepsDistinct<T, K(!new)>(q: seq<T>, i: nat, x: T, key: T -> K)
    requires i <= |q| && DistinctBy(q, key) && forall j :: 0 <= j < |q| ==> key(q[j]) != key(x)
    ensures DistinctBy(q[..i] + [x] + q[i..], key)
  {
    InsertedAt(q, i, x);
  }

  /** `x` stands before `y` in `items`. */
  ghost predicate Precedes<T>(items: seq<T>, x: T, y: T) {
    exists i, j :: 0 <= i < j < |items| && items[i] == x && items[j] == y
  }

  /** Items of one start keep the order they have in `items`. */
  ghost predicate KeepsTies<T>(items: seq<T>, r: seq<T>, start: T -> Option<int>) {
    forall i, j :: 0 <= i < j < |r| && start(r[i]) == start(r[j]) ==> Precedes(items, r[i], r[j])
  }

  lemma LongerPrecedes<T>(items: seq<T>, z: T, x: T, y: T)
    requires Precedes(items, x, y)
    ensures Precedes(items + [z], x, y)
  {
    var i, j :| 0 <= i < j < |items| && items[i] == x && items[j] == y;
    assert (items + [z])[i] == x && (items + [z])[j] == y;
  }

  /** The newest item goes behind those of its own start. */
  lemma InsertKeepsTies<T>(items: seq<T>, q: seq<T>, i: nat, x: T, start: T -> Option<int>)
    requires i <= |q| && KeepsTies(items, q, start) && forall y :: y in q ==> y in items
    requires forall j :: i <= j < |q| ==> start(q[j]) != start(x)
    ensures KeepsTies(items + [x], q[..i] + [x] + q[i..], start)
  {
    InsertedAt(q, i, x);
    var r := q[..i] + [x] + q[i..];
    forall a, b | 0 <= a < b < |r| && start(r[a]) == start(r[b]) ensures Precedes(items + [x], r[a], r[b]) {
      if b == i {
        assert r[a] in q;
        var n :| 0 <= n < |items| && items[n] == r[a];
        assert (items + [x])[n] == r[a] && (items + [x])[|items|] == x;
      } else if a != i {
        LongerPrecedes(items, x, r[a], r[b]);
      }
    }
  }

  /** Inserts `x` behind every item that starts no later. */
  method InsertByStart<T, K(!new)>(ghost items: seq<T>, q: seq<T>, x: T, start: T -> Option<int>,
    ghost key: T -> K) returns (r: seq<T>)
    requires KeepsTies(items, q, start) && forall y :: y in q ==> y in items
    requires OrderedBy(q, start) && DistinctBy(q, key) && forall j :: 0 <= j < |q| ==> key(q[j]) != key(x)
    ensures OrderedBy(r, start) && DistinctBy(r, key) && |r| == |q| + 1 && KeepsTies(items + [x], r, start)
    ensures forall y :: y in r <==> y in q || y == x
  {
    var i := |q|;
    while i > 0 && !StartsNoLater(start(q[i - 1]), start(x))
      invariant 0 <= i <= |q|
      invariant forall j :: i <= j < |q| ==> StartsNoLater(start(x), start(q[j])) && start(q[j]) != start(x)
    {
      i := i - 1;
    }
    r := q[..i] + [x] + q[i..];
    InsertKeepsOrder(q, i, x, start);
    InsertKeepsDistinct(q, i, x, key);
    InsertKeepsTies(items, q, i, x, start);
    InsertedItems(q, i, x);
  }

  /** A stable sort by start of items with distinct keys. */
  method SortByStart<T, K(!new)>(items: seq<T>, start: T -> Option<int>, ghost key: T -> K) returns (r: seq<T>)
    requires DistinctBy(items, key)
    ensures OrderedBy(r, start) && DistinctBy(r, key) && |r| == |items| && KeepsTies(items, r, start)
    ensures forall y :: y in r <==> y in items
  {
    r := [];
    hide OrderedBy, KeepsTies;
    assert OrderedBy(r, start) && KeepsTies([], r, start) by { NothingToOrder(start); }
    for n := 0 to |items|
      invariant OrderedBy(r, start) && DistinctBy(r, key) && |r| == n && KeepsTies(items[..n], r, start)
      invariant forall y :: y in r <==> y in items[..n]
    {
      forall j | 0 <= j < |r| ensures key(r[j]) != key(items[n]) {
        assert r[j] in items[..n];
      }
      assert items[..n + 1] == items[..n] + [items[n]];
      r := InsertByStart(items[..n], r, items[n], start, key);
    }
    assert items[..|items|] == items;
  }

  /** What the order means: timed items by start, and everything behind a timeless item is timeless. */
  lemma TimelessLast<T>(items: seq<T>, start: T -> Option<int>, i: nat, j: nat)
    requires OrderedBy(items, start) && i < j < |items|
    ensures start(items[i]).Some? && start(items[j]).Some? ==> start(items[i]).value <= start(items[j]).value
    ensures start(items[i]).None? ==> start(items[j]).None?
  {
  }

  lemma NothingToOrder<T>(start: T -> Option<int>)
    ensures OrderedBy<T>([], start) && KeepsTies<T>([], [], start)
  {
  }

  function RowId(row: Task): Id {
    row.id
  }

  function RowStart(row: Task): Option<int> {
    row.startAt
  }

  function SlotKey(o: Occurrence): (Id, Option<int>) {
    (o.taskId, o.originalStart)
  }

  function EntryStart(o: Occurrence): Option<int> {
    o.occurrenceStart
  }

  /** Row `i` is the first of its id. */
  predicate IsFirst(rows: seq<Task>, i: nat) {
    i < |rows| && forall j :: 0 <= j < i ==> rows[j].id != rows[i].id
  }

  /** `unique` are the rows at `positions`, each the first of its id, in their order. */
  ghost predicate FirstsAt(rows: seq<Task>, positions: seq<nat>, unique: seq<Task>) {
    && |positions| == |unique|
    && (forall i, j :: 0 <= i < j < |positions| ==> positions[i] < positions[j])
    && forall i :: 0 <= i < |positions| ==> IsFirst(rows, positions[i]) && unique[i] == rows[positions[i]]
  }

  predicate AllBelow(positions: seq<nat>, i: nat) {
    forall j :: 0 <= j < |positions| ==> positions[j] < i
  }

  lemma NoFirsts(rows: seq<Task>)
    ensures FirstsAt(rows, [], [])
  {
  }

  lemma OneMoreFirst(rows: seq<Task>, positions: seq<nat>, unique: seq<Task>, i: nat)
    requires FirstsAt(rows, positions, unique) && AllBelow(positions, i) && i < |rows|
    requires forall j :: 0 <= j < i ==> rows[j].id != rows[i].id
    ensures FirstsAt(rows, positions + [i], unique + [rows[i]])
  {
  }

  /** Keeps the first row of each id, in the order in which the ids are first seen. */
  method DedupeById(rows: seq<Task>) returns (unique: seq<Task>)
    ensures DistinctBy(unique, RowId)
    ensures exists positions :: FirstsAt(rows, positions, unique)
    ensures forall row :: row in unique ==> row in rows
    ensures forall row :: row in rows ==> exists kept :: kept in unique && kept.id == row.id
  {
    var seen: set<Id> := {};
    ghost var positions: seq<nat> := [];
    unique := [];
    hide FirstsAt, IsFirst;
    assert FirstsAt(rows, [], []) by { NoFirsts(rows); }
    for i := 0 to |rows|
      invariant DistinctBy(unique, RowId)
      invariant FirstsAt(rows, positions, unique) && AllBelow(positions, i)
      invariant forall id :: id in seen <==> exists kept :: kept in unique && kept.id == id
      invariant forall row :: row in unique ==> row in rows[..i]
      invariant forall row :: row in rows[..i] ==> row.id in seen
    {
      var row := rows[i];
      assert rows[..i + 1] == rows[..i] + [row];
      if row.id !in seen {
        assert forall kept :: kept in unique ==> kept.id != row.id;
        assert row in unique + [row];
        OneMoreFirst(rows, positions, unique, i);
        seen := seen + {row.id};
        unique := unique + [row];
        positions := positions + [i];
      }
    }
    assert rows[..|rows|] == rows;
  }
}
