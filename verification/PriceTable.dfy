/** The rows of price and trading-value tables, and picking some of them in order. */
module PriceTable {

  // A missing cell is a missing value.
  datatype Row = Row(date: int, cells: map<string, real>)

  // Places in increasing order, all those below n that are chosen and no others.
  ghost predicate Enumerates(at: seq<nat>, n: nat, chosen: nat -> bool) {
    && (forall i, j :: 0 <= i < j < |at| ==> at[i] < at[j])
    && (forall k: nat :: k in at <==> k < n && chosen(k))
  }

  lemma EnumeratesOneMore(at: seq<nat>, n: nat, chosen: nat -> bool)
    requires Enumerates(at, n, chosen)
    ensures Enumerates(if chosen(n) then at + [n] else at, n + 1, chosen)
  {
    if chosen(n) {
      var more := at + [n];
      forall i, j | 0 <= i < j < |more| ensures more[i] < more[j] { assert more[i] in at; }
      assert forall k: nat :: k in more <==> k in at || k == n;
    }
  }

  lemma EnumeratesSame(at: seq<nat>, n: nat, chosen: nat -> bool, other: nat -> bool)
    requires Enumerates(at, n, chosen) && forall k: nat :: k < n ==> chosen(k) == other(k)
    ensures Enumerates(at, n, other)
  {
  }

  // The picked rows are those at the places.
  ghost predicate RowsAt(picked: seq<Row>, at: seq<nat>, rows: seq<Row>) {
    |picked| == |at| && forall i :: 0 <= i < |at| ==> at[i] < |rows| && picked[i] == rows[at[i]]
  }

  lemma RowsAtMore(picked: seq<Row>, at: seq<nat>, rows: seq<Row>, last: Row)
    requires RowsAt(picked, at, rows)
    ensures RowsAt(picked, at, rows + [last]) && RowsAt(picked + [last], at + [|rows|], rows + [last])
  {
  }
}
