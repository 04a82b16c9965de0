/** Inserting a sequence of new rows under drawn ids, one at a time. */
module Tables {

  /** The drawn id of every item is unused in `table` and no two items share one. */
  predicate FreshFor<T>(table: map<nat, T>, items: seq<nat>, ids: map<nat, nat>) {
    && (forall e :: e in items ==> e in ids && ids[e] !in table)
    && (forall e, f :: e in items && f in items && e != f ==> ids[e] != ids[f])
  }

  ghost predicate NoRepeats(items: seq<nat>) {
    forall i, j :: 0 <= i < j < |items| ==> items[i] != items[j]
  }

  function InsertRows<T>(table: map<nat, T>, items: seq<nat>, ids: map<nat, nat>, rows: map<nat, T>): map<nat, T>
    requires forall e :: e in items ==> e in ids && e in rows
  {
    if items == [] then table
    else
      var last := items[|items| - 1];
      InsertRows(table, items[..|items| - 1], ids, rows)[ids[last] := rows[last]]
  }

  lemma {:induction false} InsertRowsContents<T>(
    table: map<nat, T>, items: seq<nat>, ids: map<nat, nat>, rows: map<nat, T>)
    requires forall e :: e in items ==> e in ids && e in rows
    requires FreshFor(table, items, ids)
    ensures var r := InsertRows(table, items, ids, rows);
      && (forall x :: x in table ==> x in r && r[x] == table[x])
      && (forall e :: e in items ==> ids[e] in r && r[ids[e]] == rows[e])
      && (forall x :: x in r && x !in table ==> exists e :: e in items && x == ids[e])
  {
    if items != [] {
      var front, last := items[..|items| - 1], items[|items| - 1];
      assert forall e :: e in items <==> e in front || e == last;
      InsertRowsContents(table, front, ids, rows);
      var r := InsertRows(table, items, ids, rows);
      forall x | x in r && x !in table ensures exists e :: e in items && x == ids[e] {
        if x == ids[last] { assert last in items; }
      }
    }
  }
}
