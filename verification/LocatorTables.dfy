/** Sorted tables of locator strings: how they are built, searched, and why the strings alone
    determine them. */
module LocatorTables {
  import opened Bytes
  import opened Text
  import opened Sorting
  import opened SafeStateNormal

  predicate IsTable(table: seq<Bytes>) {
    Ordered(LexLess, table)
  }

  /** Adjacent duplicates dropped. */
  function Dedup(xs: seq<Bytes>): seq<Bytes> {
    if |xs| < 2 then xs
    else if xs[|xs| - 2] == xs[|xs| - 1] then Dedup(xs[..|xs| - 1])
    else Dedup(xs[..|xs| - 1]) + [xs[|xs| - 1]]
  }

  /** The table of a collection of strings. */
  function TableOf(values: seq<Bytes>): seq<Bytes> {
    Dedup(Sort(LexLe, values))
  }

  lemma {:induction false} DedupTables(xs: seq<Bytes>)
    requires Ordered(LexLe, xs)
    ensures IsTable(Dedup(xs)) && (forall x :: x in Dedup(xs) <==> x in xs)
    ensures xs != [] ==> Dedup(xs) != [] && Dedup(xs)[|Dedup(xs)| - 1] == xs[|xs| - 1]
    ensures |Dedup(xs)| <= |xs|
  {
    LexOrder();
    hide LexLess;
    if |xs| >= 2 {
      var init := xs[..|xs| - 1];
      DedupTables(init);
      assert xs == init + [xs[|xs| - 1]];
      assert LexLe(xs[|xs| - 2], xs[|xs| - 1]);
      assert init[|init| - 1] == xs[|xs| - 2];
    }
  }

  /** The table is strictly ascending and holds exactly the strings collected. */
  lemma TableHolds(values: seq<Bytes>)
    ensures IsTable(TableOf(values)) && (forall x :: x in TableOf(values) <==> x in values)
    ensures |TableOf(values)| <= |values|
  {
    hide LexLess, Sort, Dedup;
    LocatorOrders();
    SortSorts(LexLe, values);
    SameElements(values, Sort(LexLe, values));
    DedupTables(Sort(LexLe, values));
  }

  /** Two tables with the same strings are the same table. */
  lemma TablesAgree(s: seq<Bytes>, t: seq<Bytes>)
    requires IsTable(s) && IsTable(t) && (forall x :: x in s <==> x in t)
    ensures s == t
  {
    hide LexLess;
    LexOrder();
    StrictIsUnique(LexLess, s, t);
  }

  lemma SameStringsSameTable(a: seq<Bytes>, b: seq<Bytes>)
    requires forall x :: x in a <==> x in b
    ensures TableOf(a) == TableOf(b)
  {
    hide TableOf, IsTable;
    TableHolds(a);
    TableHolds(b);
    TablesAgree(TableOf(a), TableOf(b));
  }

  lemma {:induction false} TableAscends(table: seq<Bytes>, i: nat, j: nat)
    requires IsTable(table) && i < j < |table|
    ensures LexLess(table[i], table[j])
  {
    hide LexLess;
    if i + 1 < j {
      TableAscends(table, i, j - 1);
      LexTransitive(table[i], table[j - 1], table[j]);
    }
  }

  lemma TableDistinct(table: seq<Bytes>, i: nat, j: nat)
    requires IsTable(table) && i < |table| && j < |table|
    ensures table[i] == table[j] <==> i == j
    ensures LexLess(table[i], table[j]) <==> i < j
  {
    hide LexLess;
    LexOrder();
    if i < j {
      TableAscends(table, i, j);
    } else if j < i {
      TableAscends(table, j, i);
    }
  }

  /** The string at an ordinal; empty past the end, where every caller fails. */
  function At(table: seq<Bytes>, ordinal: nat): Bytes {
    if ordinal < |table| then table[ordinal] else []
  }

  function IndexIn(table: seq<Bytes>, value: Bytes): (i: nat)
    ensures value in table ==> i < |table| && table[i] == value
  {
    if value in table then FirstAt(table, value, 0) else 0
  }

  function FirstAt(table: seq<Bytes>, value: Bytes, from: nat): (i: nat)
    requires exists j :: from <= j < |table| && table[j] == value
    ensures i < |table| && table[i] == value
    decreases |table| - from
  {
    if from < |table| && table[from] == value then from
    else
      assert from < |table|;
      FirstAt(table, value, from + 1)
  }

  lemma IndexOfEntry(table: seq<Bytes>, i: nat)
    requires IsTable(table) && i < |table|
    ensures IndexIn(table, table[i]) == i
  {
    hide IsTable;
    TableDistinct(table, i, IndexIn(table, table[i]));
  }

  /** The library's binary search for the first entry not below `value`. */
  method LowerBound(table: seq<Bytes>, value: Bytes) returns (position: nat)
    requires IsTable(table)
    ensures position <= |table|
    ensures forall i :: 0 <= i < position ==> LexLess(table[i], value)
    ensures forall i :: position <= i < |table| ==> !LexLess(table[i], value)
  {
    hide LexLess, IsTable;
    var low, high := 0, |table|;
    while low < high
      invariant 0 <= low <= high <= |table|
      invariant forall i :: 0 <= i < low ==> LexLess(table[i], value)
      invariant forall i :: high <= i < |table| ==> !LexLess(table[i], value)
    {
      var mid := (low + high) / 2;
      Monotone(table, value, mid);
      if LexLess(table[mid], value) {
        low := mid + 1;
      } else {
        high := mid;
      }
    }
    position := low;
  }

  lemma Monotone(table: seq<Bytes>, value: Bytes, mid: nat)
    requires IsTable(table) && mid < |table|
    ensures LexLess(table[mid], value) ==> forall i :: 0 <= i <= mid ==> LexLess(table[i], value)
    ensures !LexLess(table[mid], value) ==> forall i :: mid <= i < |table| ==> !LexLess(table[i], value)
  {
    hide LexLess, IsTable;
    LexOrder();
    forall i | 0 <= i < |table| && i != mid
      ensures if i < mid then LexLess(table[i], table[mid]) else LexLess(table[mid], table[i])
    {
      if i < mid {
        TableAscends(table, i, mid);
      } else {
        TableAscends(table, mid, i);
      }
    }
  }

  /** The ordinal of a string, if the table has it. */
  method Ordinal(table: seq<Bytes>, value: Bytes) returns (r: Option<nat>)
    requires IsTable(table)
    ensures r == if value in table then Some(IndexIn(table, value)) else None
  {
    hide LexLess, IsTable;
    var position := LowerBound(table, value);
    LexIrreflexive(value);
    if position == |table| || table[position] != value {
      if value in table {
        var i :| 0 <= i < |table| && table[i] == value;
        LexOrder();
        if position < i {
          TableAscends(table, position, i);
        }
        assert false;
      }
      return None;
    }
    IndexOfEntry(table, position);
    return Some(position);
  }

  /** Sort, then drop adjacent duplicates in place. */
  method MakeTable(values: seq<Bytes>) returns (table: seq<Bytes>)
    ensures table == TableOf(values)
  {
    hide LexLess, Sort;
    LocatorOrders();
    LocatorsDoNotTie(values);
    var sorted := StdSort(LexLe, values);
    AnySortIsSort(LexLe, values, sorted);
    table := [];
    for i := 0 to |sorted|
      invariant table == Dedup(sorted[..i])
      invariant i > 0 ==> table != [] && table[|table| - 1] == sorted[i - 1]
    {
      assert sorted[..i + 1][..i] == sorted[..i];
      if table == [] || table[|table| - 1] != sorted[i] {
        table := table + [sorted[i]];
      }
    }
    assert sorted[..|sorted|] == sorted;
  }
}
