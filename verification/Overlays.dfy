/**
 * The per-range buffers of a running transaction (coordinator/src/transaction.rs) and the record of
 * writes they become at prepare time (rangeserver/src/range_manager/impl.rs).
 */
module Overlays {
  import opened Base
  import Records

  /**
   * What a transaction knows about one range. The source keeps only the keys of `seen`; the values of
   * all reads, also of repeated ones, are kept here as history.
   */
  datatype Participant = Participant(
    seen: set<(Bytes, Option<Bytes>)>,
    writeset: map<Bytes, Bytes>,
    deleteset: set<Bytes>,
    leader: nat)

  type Participants = map<RangeId, Participant>

  const UNSET_LEADER: nat := 0

  const FRESH: Participant := Participant({}, map[], {}, UNSET_LEADER)

  function PartOf(parts: Participants, r: RangeId): Participant {
    if r in parts then parts[r] else FRESH
  }

  function BufferPut(p: Participant, k: Bytes, v: Bytes): Participant {
    p.(deleteset := p.deleteset - {k}, writeset := p.writeset[k := v])
  }

  function BufferDel(p: Participant, k: Bytes): Participant {
    p.(writeset := p.writeset - {k}, deleteset := p.deleteset + {k})
  }

  predicate Buffered(p: Participant, k: Bytes) {
    k in p.writeset || k in p.deleteset
  }

  /** What the transaction sees for a key whose committed value is `below`. */
  function ReadThrough(p: Participant, k: Bytes, below: Option<Bytes>): Option<Bytes> {
    if k in p.writeset then Some(p.writeset[k])
    else if k in p.deleteset then None
    else below
  }

  ghost predicate Disjoint(p: Participant) {
    p.writeset.Keys !! p.deleteset
  }

  // ---------------------------------------------------------------- sequential reference

  datatype Op =
    | OpPut(r: RangeId, k: Bytes, v: Bytes)
    | OpDel(r: RangeId, k: Bytes)
    | OpGet(r: RangeId, k: Bytes)

  /** A plain database: one value per range and key. */
  type Database = map<(RangeId, Bytes), Bytes>

  function ValueIn(db: Database, r: RangeId, k: Bytes): Option<Bytes> {
    if (r, k) in db then Some(db[(r, k)]) else None
  }

  function Exec(db: Database, op: Op): Database {
    match op
    case OpPut(r, k, v) => db[(r, k) := v]
    case OpDel(r, k) => db - {(r, k)}
    case OpGet(_, _) => db
  }

  function ExecAll(db: Database, ops: seq<Op>): Database
    decreases |ops|
  {
    if ops == [] then db else Exec(ExecAll(db, ops[..|ops| - 1]), ops[|ops| - 1])
  }

  function Buffer(parts: Participants, op: Op): Participants {
    match op
    case OpPut(r, k, v) => parts[r := BufferPut(PartOf(parts, r), k, v)]
    case OpDel(r, k) => parts[r := BufferDel(PartOf(parts, r), k)]
    case OpGet(r, k) => parts[r := PartOf(parts, r)]
  }

  function BufferAll(ops: seq<Op>): Participants
    decreases |ops|
  {
    if ops == [] then map[] else Buffer(BufferAll(ops[..|ops| - 1]), ops[|ops| - 1])
  }

  /**
   * Read-your-writes: after any operations, reading through the buffers gives exactly what executing
   * the operations one by one on the database would give, and no key is both written and deleted.
   */
  lemma {:induction false} ReadsEqualSequentialExecution(db: Database, ops: seq<Op>, r: RangeId, k: Bytes)
    ensures ReadThrough(PartOf(BufferAll(ops), r), k, ValueIn(db, r, k)) == ValueIn(ExecAll(db, ops), r, k)
    ensures Disjoint(PartOf(BufferAll(ops), r))
    decreases |ops|
  {
    if ops != [] {
      ReadsEqualSequentialExecution(db, ops[..|ops| - 1], r, k);
    }
  }

  // ---------------------------------------------------------------- the prepare record

  /** The writes sent with a prepare request: the buffers, listed in whatever order they iterate. */
  datatype Record = Record(puts: seq<(Bytes, Bytes)>, deletes: seq<Bytes>)

  ghost predicate Enumerates(rec: Record, p: Participant) {
    && (forall x :: x in rec.puts <==> x.0 in p.writeset && p.writeset[x.0] == x.1)
    && (forall k :: k in rec.deletes <==> k in p.deleteset)
  }

  function PutRows(puts: seq<(Bytes, Bytes)>, e: Epoch): seq<Records.Put> {
    seq(|puts|, i requires 0 <= i < |puts| => Records.Put(puts[i].0, e, Records.Live(puts[i].1)))
  }

  function DeleteRows(deletes: seq<Bytes>, e: Epoch): seq<Records.Put> {
    seq(|deletes|, i requires 0 <= i < |deletes| => Records.Put(deletes[i], e, Records.Tombstone))
  }

  /** The storage writes of a commit at epoch e: all puts, then all deletes. */
  function RowsFor(rec: Record, e: Epoch): seq<Records.Put> {
    PutRows(rec.puts, e) + DeleteRows(rec.deletes, e)
  }

  function ApplyRecord(t: Records.Table, rec: Record, e: Epoch): Records.Table {
    Records.WriteAll(t, RowsFor(rec, e))
  }

  /** No row of the table is newer than e. */
  ghost predicate UpTo(t: Records.Table, e: Epoch) {
    forall k, e' :: e' > e ==> Records.Lookup(Records.RowsOf(t, k), e') == None
  }

  /** The storage writes of an enumeration are exactly the buffered puts and deletes, stamped e. */
  lemma RowsForMembers(rec: Record, p: Participant, e: Epoch)
    requires Enumerates(rec, p)
    ensures forall w :: w in RowsFor(rec, e) <==>
                        && w.epoch == e
                        && (if w.cell.Tombstone? then w.key in p.deleteset
                            else w.key in p.writeset && p.writeset[w.key] == w.cell.value)
  {
    var ps, ds := PutRows(rec.puts, e), DeleteRows(rec.deletes, e);
    forall w | w in ps
      ensures w.epoch == e && w.cell.Live? && w.key in p.writeset && p.writeset[w.key] == w.cell.value
    {
      var i :| 0 <= i < |ps| && ps[i] == w;
      assert rec.puts[i] in rec.puts;
    }
    forall w | w in ds ensures w.epoch == e && w.cell.Tombstone? && w.key in p.deleteset {
      var i :| 0 <= i < |ds| && ds[i] == w;
      assert rec.deletes[i] in rec.deletes;
    }
    forall w: Records.Put | w.epoch == e && w.cell.Live? && w.key in p.writeset && p.writeset[w.key] == w.cell.value
      ensures w in ps
    {
      var i :| 0 <= i < |rec.puts| && rec.puts[i] == (w.key, w.cell.value);
      assert ps[i] == w;
    }
    forall w: Records.Put | w.epoch == e && w.cell.Tombstone? && w.key in p.deleteset ensures w in ds {
      var i :| 0 <= i < |rec.deletes| && rec.deletes[i] == w.key;
      assert ds[i] == w;
    }
  }

  /**
   * Applying the buffers of one range at an epoch not below any stored one makes every key read as the
   * transaction saw it, whatever the iteration order; no row newer than the epoch appears.
   */
  lemma ApplyRecordReads(t: Records.Table, rec: Record, p: Participant, e: Epoch)
    requires Records.WellFormed(t) && UpTo(t, e) && Enumerates(rec, p) && Disjoint(p)
    ensures Records.WellFormed(ApplyRecord(t, rec, e)) && UpTo(ApplyRecord(t, rec, e), e)
    ensures forall k :: Records.Get(ApplyRecord(t, rec, e), k) == ReadThrough(p, k, Records.Get(t, k))
  {
    RowsForMembers(rec, p, e);
    var ws := RowsFor(rec, e);
    var t' := ApplyRecord(t, rec, e);
    assert Records.Functional(ws);
    Records.WriteAllLookup(t, ws, [], 0);
    forall k, e' | e' > e ensures Records.Lookup(Records.RowsOf(t', k), e') == None {
      Records.WriteAllLookup(t, ws, k, e');
    }
    forall k ensures Records.Get(t', k) == ReadThrough(p, k, Records.Get(t, k)) {
      ApplyRecordReadsKey(t, rec, p, e, k);
    }
  }

  lemma ApplyRecordReadsKey(t: Records.Table, rec: Record, p: Participant, e: Epoch, k: Bytes)
    requires Records.WellFormed(t) && UpTo(t, e) && Enumerates(rec, p) && Disjoint(p)
    requires Records.WellFormed(ApplyRecord(t, rec, e)) && UpTo(ApplyRecord(t, rec, e), e)
    ensures Records.Get(ApplyRecord(t, rec, e), k) == ReadThrough(p, k, Records.Get(t, k))
  {
    RowsForMembers(rec, p, e);
    var ws := RowsFor(rec, e);
    var t' := ApplyRecord(t, rec, e);
    assert Records.Functional(ws);
    if Buffered(p, k) {
      var c := if k in p.writeset then Records.Live(p.writeset[k]) else Records.Tombstone;
      assert Records.Put(k, e, c) in ws;
      Records.WriteAllLookup(t, ws, k, e);
      Records.GetIsHighestEpoch(t', k, e, c);
    } else {
      forall e' ensures Records.Lookup(Records.RowsOf(t', k), e') == Records.Lookup(Records.RowsOf(t, k), e') {
        Records.WriteAllLookup(t, ws, k, e');
      }
      Records.SameCells(Records.RowsOf(t', k), Records.RowsOf(t, k));
    }
  }

  function CellOf(p: Participant, k: Bytes): Records.Cell {
    if k in p.writeset then Records.Live(p.writeset[k]) else Records.Tombstone
  }

  /** Applying a record at epoch e writes one row for each buffered key and touches no other row. */
  lemma ApplyRecordRows(t: Records.Table, rec: Record, p: Participant, e: Epoch, k: Bytes, e': Epoch)
    requires Records.WellFormed(t) && Enumerates(rec, p) && Disjoint(p)
    ensures Records.WellFormed(ApplyRecord(t, rec, e))
    ensures Records.Lookup(Records.RowsOf(ApplyRecord(t, rec, e), k), e') ==
            if e' == e && Buffered(p, k) then Some(CellOf(p, k)) else Records.Lookup(Records.RowsOf(t, k), e')
  {
    var ws := RowsFor(rec, e);
    RowsForMembers(rec, p, e);
    assert Records.Functional(ws);
    Records.WriteAllLookup(t, ws, k, e');
    if e' == e && Buffered(p, k) { assert Records.Put(k, e, CellOf(p, k)) in ws; }
  }

  /** The key has a row of an epoch above e. */
  ghost predicate Hidden(t: Records.Table, k: Bytes, e: Epoch) {
    exists e' :: e' > e && Records.Lookup(Records.RowsOf(t, k), e').Some?
  }

  /** Rows up to an epoch do not matter to a read if there is a row above it. */
  lemma SameTop(t: Records.Table, t': Records.Table, k: Bytes, e: Epoch)
    requires Records.WellFormed(t) && Records.WellFormed(t') && Hidden(t, k, e)
    requires forall e' :: e' > e ==>
               Records.Lookup(Records.RowsOf(t', k), e') == Records.Lookup(Records.RowsOf(t, k), e')
    ensures Records.Get(t', k) == Records.Get(t, k)
  {
    var rows := Records.RowsOf(t, k);
    var above :| above > e && Records.Lookup(rows, above).Some?;
    var top, c := rows[0].epoch, rows[0].cell;
    if top < above { Records.LookupBelow(rows, above); }
    forall e' | e' > top ensures Records.Lookup(rows, e') == None { Records.LookupBelow(rows, e'); }
    Records.GetIsHighestEpoch(t, k, top, c);
    Records.GetIsHighestEpoch(t', k, top, c);
  }

  /** A record applied late decides what its keys read as, save those that have newer rows. */
  lemma ApplyRecordLate(t: Records.Table, rec: Record, p: Participant, e: Epoch, k: Bytes)
    requires Records.WellFormed(t) && Enumerates(rec, p) && Disjoint(p)
    ensures Records.Get(ApplyRecord(t, rec, e), k) ==
            if Buffered(p, k) && !Hidden(t, k, e) then ReadThrough(p, k, None) else Records.Get(t, k)
  {
    var t' := ApplyRecord(t, rec, e);
    forall e'
      ensures Records.Lookup(Records.RowsOf(t', k), e') ==
              if e' == e && Buffered(p, k) then Some(CellOf(p, k)) else Records.Lookup(Records.RowsOf(t, k), e')
    {
      ApplyRecordRows(t, rec, p, e, k, e');
    }
    ApplyRecordRows(t, rec, p, e, k, e);
    hide ApplyRecord, Enumerates;
    if !Buffered(p, k) {
      Records.SameCells(Records.RowsOf(t', k), Records.RowsOf(t, k));
    } else if Hidden(t, k, e) {
      SameTop(t, t', k, e);
    } else {
      Records.GetIsHighestEpoch(t', k, e, CellOf(p, k));
    }
  }

  /**
   * Buffering then flushing is sequential execution: if the table of a range agrees with a database,
   * then after any operations, committing the buffers of the range in any order leaves the table
   * agreeing with the database on which the operations were executed one by one.
   */
  lemma FlushEqualsSequentialExecution(
    db: Database, ops: seq<Op>, r: RangeId, t: Records.Table, rec: Record, e: Epoch)
    requires Records.WellFormed(t) && UpTo(t, e)
    requires forall k :: Records.Get(t, k) == ValueIn(db, r, k)
    requires Enumerates(rec, PartOf(BufferAll(ops), r))
    ensures forall k :: Records.Get(ApplyRecord(t, rec, e), k) == ValueIn(ExecAll(db, ops), r, k)
  {
    var p := PartOf(BufferAll(ops), r);
    ReadsEqualSequentialExecution(db, ops, r, []);
    ApplyRecordReads(t, rec, p, e);
    forall k ensures Records.Get(ApplyRecord(t, rec, e), k) == ValueIn(ExecAll(db, ops), r, k) {
      ReadsEqualSequentialExecution(db, ops, r, k);
    }
  }
}
