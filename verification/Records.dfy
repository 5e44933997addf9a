/**
 * The versioned records table (rangeserver/src/storage/cassandra.rs and the `records` table of
 * schema/cassandra/atomix/schema.cql): per key, one row per epoch, clustered newest epoch first.
 */
module Records {
  import opened Base

  datatype Cell = Tombstone | Live(value: Bytes)
  datatype Row = Row(epoch: Epoch, cell: Cell)
  type Table = map<Bytes, seq<Row>>

  /** Rows of one key in clustering order: epoch descending, one row per epoch. */
  ghost predicate Clustered(rows: seq<Row>) {
    forall i, j :: 0 <= i < j < |rows| ==> rows[j].epoch < rows[i].epoch
  }

  ghost predicate WellFormed(t: Table) {
    forall k :: k in t ==> Clustered(t[k])
  }

  function Insert(rows: seq<Row>, e: Epoch, c: Cell): seq<Row>
    decreases |rows|
  {
    if rows == [] || rows[0].epoch < e then [Row(e, c)] + rows
    else if rows[0].epoch == e then [Row(e, c)] + rows[1..]
    else [rows[0]] + Insert(rows[1..], e, c)
  }

  function RowsOf(t: Table, k: Bytes): seq<Row> {
    if k in t then t[k] else []
  }

  /** Upsert and delete are both an insertion of a row; a delete inserts a tombstone. */
  function Write(t: Table, k: Bytes, e: Epoch, c: Cell): Table {
    t[k := Insert(RowsOf(t, k), e, c)]
  }

  function Newest(rows: seq<Row>): Option<Bytes> {
    if rows == [] || rows[0].cell.Tombstone? then None else Some(rows[0].cell.value)
  }

  /** The first row in clustering order, with a tombstone read as absent. */
  function Get(t: Table, k: Bytes): Option<Bytes> {
    Newest(RowsOf(t, k))
  }

  /** The cell stored for an epoch, if any. */
  function Lookup(rows: seq<Row>, e: Epoch): Option<Cell>
    decreases |rows|
  {
    if rows == [] then None
    else if rows[0].epoch == e then Some(rows[0].cell)
    else Lookup(rows[1..], e)
  }

  lemma {:induction false} LookupBelow(rows: seq<Row>, e: Epoch)
    requires Clustered(rows) && (rows == [] || rows[0].epoch < e)
    ensures Lookup(rows, e) == None
    decreases |rows|
  {
    if rows != [] {
      LookupBelow(rows[1..], e);
    }
  }

  /** Inserting changes one cell and nothing else, and keeps the clustering order. */
  lemma {:induction false} InsertLookup(rows: seq<Row>, e: Epoch, c: Cell, e': Epoch)
    requires Clustered(rows)
    ensures Clustered(Insert(rows, e, c))
    ensures Lookup(Insert(rows, e, c), e') == if e' == e then Some(c) else Lookup(rows, e')
    decreases |rows|
  {
    if rows != [] && rows[0].epoch >= e {
      InsertLookup(rows[1..], e, c, e');
      InsertHeads(rows[1..], e, c);
    }
    assert rows != [] && rows[0].epoch < e ==> ([Row(e, c)] + rows)[1..] == rows;
    assert rows != [] && rows[0].epoch == e ==> ([Row(e, c)] + rows[1..])[1..] == rows[1..];
    assert rows != [] ==> ([rows[0]] + Insert(rows[1..], e, c))[1..] == Insert(rows[1..], e, c);
  }

  /** Every row of an insertion is the new row or an old one. */
  lemma {:induction false} InsertHeads(rows: seq<Row>, e: Epoch, c: Cell)
    ensures forall i :: 0 <= i < |Insert(rows, e, c)| ==>
              Insert(rows, e, c)[i].epoch == e || Insert(rows, e, c)[i] in rows
    decreases |rows|
  {
    if rows != [] && rows[0].epoch > e {
      InsertHeads(rows[1..], e, c);
    }
  }

  /** Clustered rows are determined by their cells. */
  lemma {:induction false} SameCells(a: seq<Row>, b: seq<Row>)
    requires Clustered(a) && Clustered(b)
    requires forall e :: Lookup(a, e) == Lookup(b, e)
    ensures a == b
    decreases |a|
  {
    assert b != [] ==> Lookup(b, b[0].epoch) == Some(b[0].cell);
    if a != [] {
      assert Lookup(b, a[0].epoch) == Some(a[0].cell);
      assert Lookup(a, b[0].epoch) == Some(b[0].cell);
      if b[0].epoch < a[0].epoch { LookupBelow(b, a[0].epoch); }
      if a[0].epoch < b[0].epoch { LookupBelow(a, b[0].epoch); }
      assert a[0] == b[0];
      forall e ensures Lookup(a[1..], e) == Lookup(b[1..], e) {
        assert Lookup(a, e) == Lookup(b, e);
        if e == a[0].epoch {
          LookupBelow(a[1..], e);
          LookupBelow(b[1..], e);
        }
      }
      SameCells(a[1..], b[1..]);
      assert a == [a[0]] + a[1..] && b == [b[0]] + b[1..];
    }
  }

  /** A read returns the cell of the highest epoch written for the key, tombstones reading as absent. */
  lemma GetIsHighestEpoch(t: Table, k: Bytes, e: Epoch, c: Cell)
    requires WellFormed(t) && Lookup(RowsOf(t, k), e) == Some(c)
    requires forall e' :: e' > e ==> Lookup(RowsOf(t, k), e') == None
    ensures Get(t, k) == if c.Tombstone? then None else Some(c.value)
  {
    var rows := RowsOf(t, k);
    assert Lookup(rows, rows[0].epoch) == Some(rows[0].cell);
    if rows[0].epoch < e { LookupBelow(rows, e); }
  }

  lemma WriteLookup(t: Table, k: Bytes, e: Epoch, c: Cell, k': Bytes, e': Epoch)
    requires WellFormed(t)
    ensures WellFormed(Write(t, k, e, c))
    ensures Lookup(RowsOf(Write(t, k, e, c), k'), e') ==
            if k' == k && e' == e then Some(c) else Lookup(RowsOf(t, k'), e')
  {
    InsertLookup(RowsOf(t, k), e, c, e');
  }

  // ---------------------------------------------------------------- many writes

  datatype Put = Put(key: Bytes, epoch: Epoch, cell: Cell)

  function WriteAll(t: Table, ws: seq<Put>): Table
    decreases |ws|
  {
    if ws == [] then t else WriteAll(Write(t, ws[0].key, ws[0].epoch, ws[0].cell), ws[1..])
  }

  /** At most one cell is written per key and epoch, though it may be written many times. */
  ghost predicate Functional(ws: seq<Put>) {
    forall v, w :: v in ws && w in ws && v.key == w.key && v.epoch == w.epoch ==> v == w
  }

  ghost predicate SameWrites(vs: seq<Put>, ws: seq<Put>) {
    forall w :: w in vs <==> w in ws
  }

  lemma {:induction false} WriteAllLookup(t: Table, ws: seq<Put>, k: Bytes, e: Epoch)
    requires WellFormed(t) && Functional(ws)
    ensures WellFormed(WriteAll(t, ws))
    ensures forall w :: w in ws && w.key == k && w.epoch == e ==> Lookup(RowsOf(WriteAll(t, ws), k), e) == Some(w.cell)
    ensures (forall w :: w in ws ==> w.key != k || w.epoch != e) ==>
              Lookup(RowsOf(WriteAll(t, ws), k), e) == Lookup(RowsOf(t, k), e)
    decreases |ws|
  {
    if ws != [] {
      var w := ws[0];
      var t1 := Write(t, w.key, w.epoch, w.cell);
      WriteLookup(t, w.key, w.epoch, w.cell, k, e);
      forall x | x in ws[1..] ensures x in ws { }
      WriteAllLookup(t1, ws[1..], k, e);
      forall x | x in ws ensures x == w || x in ws[1..] { }
    }
  }

  lemma {:induction false} WriteAllKeys(t: Table, ws: seq<Put>)
    ensures forall k :: k in WriteAll(t, ws) <==> k in t || exists w :: w in ws && w.key == k
    decreases |ws|
  {
    if ws != [] {
      var t1 := Write(t, ws[0].key, ws[0].epoch, ws[0].cell);
      WriteAllKeys(t1, ws[1..]);
      forall k ensures k in WriteAll(t, ws) <==> k in t || exists w :: w in ws && w.key == k {
        if w :| w in ws && w.key == k { assert w == ws[0] || w in ws[1..]; }
        if w :| w in ws[1..] && w.key == k { assert w in ws; }
        assert ws[0] in ws;
      }
    }
  }

  /**
   * Storage writes commute and are idempotent: the same set of writes, in any order and with any
   * repetitions, gives the same table, provided no two of them disagree on a key and an epoch.
   */
  lemma WritesCommute(t: Table, vs: seq<Put>, ws: seq<Put>)
    requires WellFormed(t) && Functional(vs) && SameWrites(vs, ws)
    ensures WriteAll(t, vs) == WriteAll(t, ws)
  {
    WriteAllKeys(t, vs);
    WriteAllKeys(t, ws);
    var a, b := WriteAll(t, vs), WriteAll(t, ws);
    forall k | k in a ensures k in b && a[k] == b[k] {
      forall e ensures Lookup(a[k], e) == Lookup(b[k], e) {
        WriteAllLookup(t, vs, k, e);
        WriteAllLookup(t, ws, k, e);
        if w :| w in vs && w.key == k && w.epoch == e { assert w in ws; }
      }
      WriteAllLookup(t, vs, k, 0);
      WriteAllLookup(t, ws, k, 0);
      SameCells(a[k], b[k]);
    }
    forall k | k in b ensures k in a { }
  }

  /**
   * Two writes that disagree on a key and an epoch do not commute: the version counter that should
   * order them is always the same, so the later one wins. Hence the condition above is exact for two writes.
   */
  lemma TwoWritesCommuteIff(t: Table, v: Put, w: Put)
    requires WellFormed(t)
    ensures WriteAll(t, [v, w]) == WriteAll(t, [w, v]) <==> Functional([v, w])
  {
    if Functional([v, w]) {
      WritesCommute(t, [v, w], [w, v]);
    } else {
      var t1, t2 := WriteAll(t, [v, w]), WriteAll(t, [w, v]);
      TwoWrites(t, v, w);
      TwoWrites(t, w, v);
      assert v.key == w.key && v.epoch == w.epoch && v.cell != w.cell;
    }
  }

  lemma TwoWrites(t: Table, v: Put, w: Put)
    requires WellFormed(t)
    ensures Lookup(RowsOf(WriteAll(t, [v, w]), w.key), w.epoch) == Some(w.cell)
  {
    var t1 := Write(t, v.key, v.epoch, v.cell);
    WriteLookup(t, v.key, v.epoch, v.cell, w.key, w.epoch);
    WriteLookup(t1, w.key, w.epoch, w.cell, w.key, w.epoch);
    assert [v, w][1..] == [w] && [w][1..] == [];
    assert WriteAll(t, [v, w]) == WriteAll(t1, [w]) == WriteAll(Write(t1, w.key, w.epoch, w.cell), []);
  }
}
