/**
  Rows come back from a query in any order.  The activation vector lists them
  sorted by id; this module shows that the sorted list depends only on which
  rows exist, and determines them.
*/
module RowOrder {

  ghost predicate Strict<T>(rows: seq<(nat, T)>) {
    forall i, j :: 0 <= i < j < |rows| ==> rows[i].0 < rows[j].0
  }

  /** `rows` lists every entry of `table` exactly once, in some retrieval order. */
  ghost predicate Enumerates<T>(rows: seq<(nat, T)>, table: map<nat, T>) {
    && (forall i, j :: 0 <= i < j < |rows| ==> rows[i].0 != rows[j].0)
    && (forall i :: 0 <= i < |rows| ==> rows[i].0 in table && table[rows[i].0] == rows[i].1)
    && (forall k :: k in table ==> (k, table[k]) in rows)
  }

  function InsertRow<T>(row: (nat, T), rows: seq<(nat, T)>): (r: seq<(nat, T)>)
    ensures multiset(r) == multiset(rows) + multiset{row}
  {
    if rows == [] then [row]
    else if row.0 <= rows[0].0 then [row] + rows
    else
      assert rows == [rows[0]] + rows[1..];
      [rows[0]] + InsertRow(row, rows[1..])
  }

  /** `sorted(rows, key=id)` */
  function SortRows<T>(rows: seq<(nat, T)>): (r: seq<(nat, T)>)
    ensures multiset(r) == multiset(rows)
  {
    if rows == [] then []
    else
      assert rows == [rows[0]] + rows[1..];
      InsertRow(rows[0], SortRows(rows[1..]))
  }

  lemma {:induction false} InsertKeepsStrict<T>(row: (nat, T), rows: seq<(nat, T)>)
    requires Strict(rows)
    requires forall r :: r in rows ==> r.0 != row.0
    ensures Strict(InsertRow(row, rows))
  {
    if rows != [] && rows[0].0 < row.0 {
      InsertKeepsStrict(row, rows[1..]);
      var rest := InsertRow(row, rows[1..]);
      forall r | r in rest ensures rows[0].0 < r.0 {
        assert r in multiset(rest);
      }
    }
  }

  lemma {:induction false} SortIsStrict<T>(rows: seq<(nat, T)>)
    requires forall i, j :: 0 <= i < j < |rows| ==> rows[i].0 != rows[j].0
    ensures Strict(SortRows(rows))
  {
    if rows != [] {
      var rest := SortRows(rows[1..]);
      SortIsStrict(rows[1..]);
      forall r | r in rest ensures r.0 != rows[0].0 {
        assert r in multiset(rows[1..]);
      }
      InsertKeepsStrict(rows[0], rest);
    }
  }

  lemma SortEnumerates<T>(rows: seq<(nat, T)>, table: map<nat, T>)
    requires Enumerates(rows, table)
    ensures Strict(SortRows(rows)) && Enumerates(SortRows(rows), table)
  {
    SortIsStrict(rows);
    var sorted := SortRows(rows);
    forall i | 0 <= i < |sorted|
      ensures sorted[i].0 in table && table[sorted[i].0] == sorted[i].1
    {
      assert sorted[i] in multiset(sorted);
      assert sorted[i] in multiset(rows);
    }
    forall k | k in table ensures (k, table[k]) in sorted {
      assert (k, table[k]) in multiset(rows);
      assert (k, table[k]) in multiset(sorted);
    }
  }

  lemma FirstRowAgrees<T>(a: seq<(nat, T)>, b: seq<(nat, T)>, table: map<nat, T>)
    requires Strict(a) && Strict(b) && a != [] && b != []
    requires Enumerates(a, table) && Enumerates(b, table)
    ensures a[0] == b[0]
  {
    assert (a[0].0, table[a[0].0]) in b;
    assert (b[0].0, table[b[0].0]) in a;
  }

  lemma EmptyTogether<T>(a: seq<(nat, T)>, b: seq<(nat, T)>, table: map<nat, T>)
    requires Enumerates(a, table) && Enumerates(b, table)
    ensures a == [] <==> b == []
  {
    if a != [] { assert (a[0].0, table[a[0].0]) in b; }
    if b != [] { assert (b[0].0, table[b[0].0]) in a; }
  }

  lemma TailEnumerates<T>(a: seq<(nat, T)>, table: map<nat, T>)
    requires Strict(a) && a != [] && Enumerates(a, table)
    ensures Strict(a[1..]) && Enumerates(a[1..], table - {a[0].0})
  {
    var rest := table - {a[0].0};
    forall k | k in rest ensures (k, rest[k]) in a[1..] {
      assert (k, table[k]) in a;
    }
  }

  /** Two strictly ordered listings of one table agree row by row. */
  lemma {:induction false} StrictListingUnique<T>(a: seq<(nat, T)>, b: seq<(nat, T)>, table: map<nat, T>)
    requires Strict(a) && Strict(b)
    requires Enumerates(a, table) && Enumerates(b, table)
    ensures a == b
    decreases |a|
  {
    hide Strict, Enumerates;
    EmptyTogether(a, b, table);
    if a != [] {
      FirstRowAgrees(a, b, table);
      TailEnumerates(a, table);
      TailEnumerates(b, table);
      StrictListingUnique(a[1..], b[1..], table - {a[0].0});
      assert a == [a[0]] + a[1..] && b == [b[0]] + b[1..];
    }
  }

  /** The sorted list is the same whatever order the rows were retrieved in. */
  lemma RetrievalOrderIrrelevant<T>(a: seq<(nat, T)>, b: seq<(nat, T)>, table: map<nat, T>)
    requires Enumerates(a, table) && Enumerates(b, table)
    ensures SortRows(a) == SortRows(b)
  {
    SortEnumerates(a, table);
    SortEnumerates(b, table);
    StrictListingUnique(SortRows(a), SortRows(b), table);
  }

  ghost function AnyListing<T>(table: map<nat, T>): (rows: seq<(nat, T)>)
    ensures Enumerates(rows, table)
  {
    if table == map[] then []
    else
      var k :| k in table;
      var rest := AnyListing(table - {k});
      assert forall x :: x in table - {k} ==> (x, table[x]) in rest;
      [(k, table[k])] + rest
  }

  ghost function Listing<T>(table: map<nat, T>): (rows: seq<(nat, T)>)
    ensures Strict(rows) && Enumerates(rows, table)
  {
    SortEnumerates(AnyListing(table), table);
    SortRows(AnyListing(table))
  }

  /** A sorted listing determines the table it lists. */
  lemma ListingInjective<T>(a: map<nat, T>, b: map<nat, T>)
    requires Listing(a) == Listing(b)
    ensures a == b
  {
    var rows := Listing(a);
    assert forall k :: k in a ==> (k, a[k]) in rows;
    assert forall k :: k in b ==> (k, b[k]) in rows;
  }

  /** Sorting any retrieval order of a table gives its listing. */
  lemma SortGivesListing<T>(rows: seq<(nat, T)>, table: map<nat, T>)
    requires Enumerates(rows, table)
    ensures SortRows(rows) == Listing(table)
  {
    RetrievalOrderIrrelevant(rows, AnyListing(table), table);
  }

  function KeysOf<T>(rows: seq<(nat, T)>): (r: seq<nat>)
    ensures |r| == |rows| && forall i :: 0 <= i < |r| ==> r[i] == rows[i].0
    ensures forall row :: row in rows ==> row.0 in r
  {
    if rows == [] then [] else [rows[0].0] + KeysOf(rows[1..])
  }

  lemma KeysOfListing<T>(table: map<nat, T>)
    ensures var r := KeysOf(Listing(table));
      && (forall i, j :: 0 <= i < j < |r| ==> r[i] < r[j])
      && (forall e :: e in r <==> e in table)
  {
    var rows := Listing(table);
    var r := KeysOf(rows);
    forall e | e in table ensures e in r {
      assert (e, table[e]) in rows;
    }
    forall e | e in r ensures e in table {
      var i :| 0 <= i < |r| && r[i] == e;
      assert rows[i].0 in table;
    }
  }

  /** The ids of a set in ascending order. */
  ghost function Ordered(ids: set<nat>): (r: seq<nat>)
    ensures forall i, j :: 0 <= i < j < |r| ==> r[i] < r[j]
    ensures forall e :: e in r <==> e in ids
  {
    var table := map e | e in ids :: true;
    KeysOfListing(table);
    KeysOf(Listing(table))
  }
}
