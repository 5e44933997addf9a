/** The ring of memtables and what it represents (rangeserver/src/cache/memtabledb.rs). */
module MemTableRing {
  import opened Base
  import opened MemTables

  datatype Status = FLUSHED | MUTABLE | IMMUTABLE

  datatype Table = Table(size: nat, status: Status, latest: Epoch, oldest: Epoch, entries: seq<Entry>)

  const EMPTY_TABLE: Table := Table(0, FLUSHED, 0, 0, [])

  /** The position of the table that is `age` steps older than the mutable one. */
  function Slot(mut: nat, n: nat, age: nat): (i: nat)
    requires mut < n && age < n
    ensures i < n
    ensures age == 0 ==> i == mut
  {
    if age <= mut then mut - age else mut + n - age
  }

  lemma WrapOnce(r: nat, n: nat)
    requires r < n
    ensures r % n == r && (n + r) % n == r
  {
    var q, m := (n + r) / n, (n + r) % n;
    assert n + r == n * q + m;
  }

  /** The source computes slots with a remainder. */
  lemma SlotMod(mut: nat, n: nat, age: nat)
    requires mut < n && age < n
    ensures (mut + n - age) % n == Slot(mut, n, age)
    ensures (mut + 1) % n == Slot(mut, n, n - 1)
  {
    if age <= mut { WrapOnce(mut - age, n); } else { WrapOnce(mut + n - age, n); }
    if mut == n - 1 { WrapOnce(0, n); } else { WrapOnce(mut + 1, n); }
  }

  lemma SlotInjective(mut: nat, n: nat, a: nat, b: nat)
    requires mut < n && a < n && b < n && a != b
    ensures Slot(mut, n, a) != Slot(mut, n, b)
  {
  }

  function AgeOf(mut: nat, n: nat, i: nat): (age: nat)
    requires mut < n && i < n
    ensures age < n && Slot(mut, n, age) == i
  {
    if i <= mut then mut - i else mut + n - i
  }

  /** After the ring moves on, every table but the reused one is one step older. */
  lemma SlotNext(mut: nat, n: nat, age: nat)
    requires mut < n && age + 1 < n
    ensures Slot(Slot(mut, n, n - 1), n, age + 1) == Slot(mut, n, age)
  {
  }

  function EntrySize(e: Entry): nat {
    |e.key| + |e.val| + 8 + 1
  }

  function SizeOf(seg: seq<Entry>): nat
    decreases |seg|
  {
    if seg == [] then 0 else SizeOf(seg[..|seg| - 1]) + EntrySize(seg[|seg| - 1])
  }

  function Flat(segs: seq<seq<Entry>>): seq<Entry>
    decreases |segs|
  {
    if segs == [] then [] else Flat(segs[..|segs| - 1]) + segs[|segs| - 1]
  }

  // ---------------------------------------------------------------- what the ring represents

  /** A table holds exactly one segment of the log; it exceeds the size limit only for a single oversized entry. */
  ghost predicate TableOk(t: Table, seg: seq<Entry>, limit: nat) {
    && Sorted(t.entries)
    && (forall x :: x in t.entries <==> x in seg)
    && t.size == SizeOf(seg)
    && (t.size > limit ==> |seg| == 1)
    && (forall x :: x in seg ==> t.oldest <= x.epoch <= t.latest)
    && (seg != [] ==> exists x :: x in seg && x.epoch == t.latest)
  }

  predicate Blank(t: Table) {
    t.status.FLUSHED? && t.size == 0 && t.entries == []
  }

  /** The segment held by the table of a given age. */
  function SegAt(segs: seq<seq<Entry>>, age: nat): seq<Entry>
    requires age < |segs|
  {
    segs[|segs| - 1 - age]
  }

  /** The part of the representation about the table of one age. */
  ghost predicate AgedOk(limit: nat, tables: seq<Table>, mut: nat, latest: Epoch, segs: seq<seq<Entry>>, age: nat)
    requires mut < |tables| && age < |tables|
  {
    var t := tables[Slot(mut, |tables|, age)];
    && t.latest <= latest
    && (age < |segs| ==>
          t.status == (if age == 0 then MUTABLE else IMMUTABLE) && TableOk(t, SegAt(segs, age), limit))
    && (age >= |segs| ==> Blank(t))
  }

  /**
   * Stepping back from the mutable table there are immutable tables and then only flushed ones; the
   * tables that are not flushed hold consecutive segments of the log, oldest segment first.
   */
  ghost predicate Represents(limit: nat, tables: seq<Table>, mut: nat, latest: Epoch, segs: seq<seq<Entry>>) {
    && 1 <= |segs| <= |tables| && mut < |tables|
    && (forall age :: 0 <= age < |tables| ==> AgedOk(limit, tables, mut, latest, segs, age))
    && (forall a, b :: 0 <= a < b < |segs| ==> Older(tables, mut, a, b))
  }

  ghost predicate Older(tables: seq<Table>, mut: nat, a: nat, b: nat)
    requires mut < |tables| && a < |tables| && b < |tables|
  {
    tables[Slot(mut, |tables|, b)].latest <= tables[Slot(mut, |tables|, a)].latest
  }

  lemma FlatAppend(segs: seq<seq<Entry>>, seg: seq<Entry>)
    ensures Flat(segs + [seg]) == Flat(segs) + seg
  {
    assert (segs + [seg])[..|segs|] == segs;
  }

  lemma FlatLast(segs: seq<seq<Entry>>)
    ensures segs == [] ==> Flat(segs) == []
    ensures segs != [] ==> Flat(segs) == Flat(segs[..|segs| - 1]) + segs[|segs| - 1]
  {
  }

  lemma Regroup(a: seq<Entry>, b: seq<Entry>, c: seq<Entry>)
    ensures a + (b + c) == a + b + c
  {
  }

  lemma {:induction false} FlatSplit(segs: seq<seq<Entry>>, j: nat)
    requires j <= |segs|
    ensures Flat(segs) == Flat(segs[..j]) + Flat(segs[j..])
    decreases |segs|
  {
    FlatLast([]);
    FlatLast(segs);
    hide Flat;
    if j == |segs| {
      assert segs[..j] == segs && segs[j..] == [];
    } else {
      var init, last := segs[..|segs| - 1], segs[|segs| - 1];
      FlatSplit(init, j);
      assert init[..j] == segs[..j] && segs[j..] == init[j..] + [last];
      FlatAppend(init[j..], last);
      Regroup(Flat(init[..j]), Flat(init[j..]), last);
    }
  }

  lemma {:induction false} FlatMembers(segs: seq<seq<Entry>>, i: nat, x: Entry)
    requires i < |segs| && x in segs[i]
    ensures x in Flat(segs)
    decreases |segs|
  {
    if i < |segs| - 1 { FlatMembers(segs[..|segs| - 1], i, x); }
  }

  lemma SizeAppend(seg: seq<Entry>, e: Entry)
    ensures SizeOf(seg + [e]) == SizeOf(seg) + EntrySize(e)
  {
    assert (seg + [e])[..|seg|] == seg;
  }

  // ---------------------------------------------------------------- writing

  /** Adding an entry to a table. */
  function Added(t: Table, e: Entry): Table {
    t.(entries := Insert(t.entries, e), size := t.size + EntrySize(e), latest := Max(t.latest, e.epoch))
  }

  lemma AddedOk(t: Table, seg: seq<Entry>, e: Entry, limit: nat)
    requires TableOk(t, seg, limit) && t.oldest <= e.epoch && t.latest <= e.epoch
    requires forall x :: x in seg ==> x.key != e.key || x.epoch != e.epoch
    requires t.size + EntrySize(e) <= limit || seg == []
    ensures TableOk(Added(t, e), seg + [e], limit)
  {
    InsertMembers(t.entries, e);
    InsertSorted(t.entries, e);
    SizeAppend(seg, e);
    assert e in seg + [e];
  }

  /** The entry fits: it joins the segment of the mutable table. */
  lemma WriteInPlace(limit: nat, tables: seq<Table>, mut: nat, latest: Epoch, segs: seq<seq<Entry>>, e: Entry)
    requires Represents(limit, tables, mut, latest, segs) && latest <= e.epoch
    requires tables[mut].size + EntrySize(e) <= limit
    requires forall x :: x in SegAt(segs, 0) ==> x.key != e.key || x.epoch != e.epoch
    requires tables[mut].oldest <= e.epoch
    ensures Represents(limit, tables[mut := Added(tables[mut], e)], mut, e.epoch,
                       segs[..|segs| - 1] + [SegAt(segs, 0) + [e]])
  {
    var n := |tables|;
    var tables' := tables[mut := Added(tables[mut], e)];
    var segs' := segs[..|segs| - 1] + [SegAt(segs, 0) + [e]];
    assert Slot(mut, n, 0) == mut && AgedOk(limit, tables, mut, latest, segs, 0);
    AddedOk(tables[mut], SegAt(segs, 0), e, limit);
    hide TableOk;
    forall age | 0 <= age < n ensures AgedOk(limit, tables', mut, e.epoch, segs', age) {
      assert AgedOk(limit, tables, mut, latest, segs, age);
      assert 0 < age < |segs| ==> SegAt(segs', age) == SegAt(segs, age);
      if age > 0 { SlotInjective(mut, n, 0, age); }
    }
    forall a, b | 0 <= a < b < |segs'| ensures Older(tables', mut, a, b) {
      assert Older(tables, mut, a, b);
      SlotInjective(mut, n, 0, b);
    }
  }

  /** The ring after moving on: the old mutable table becomes immutable, the next one takes the entry. */
  function MovedOn(tables: seq<Table>, mut: nat, e: Entry): seq<Table>
    requires mut < |tables|
  {
    var next := Slot(mut, |tables|, |tables| - 1);
    var frozen := tables[mut := tables[mut].(status := IMMUTABLE)];
    frozen[next := Added(tables[next].(status := MUTABLE, oldest := e.epoch), e)]
  }

  /** The ring moves on by updating one table after the other. */
  lemma MovingOn(tables: seq<Table>, mut: nat, next: nat, e: Entry)
    requires mut < |tables| && next == Slot(mut, |tables|, |tables| - 1) && tables[next].status.FLUSHED?
    requires tables[mut].status.MUTABLE?
    ensures var t1 := tables[next := tables[next].(status := MUTABLE)];
            var t2 := t1[mut := t1[mut].(status := IMMUTABLE)];
            var t3 := t2[next := t2[next].(oldest := e.epoch)];
            t3[next := Added(t3[next], e)] == MovedOn(tables, mut, e) && t3[next].status.MUTABLE?
  {
    hide Insert, EntrySize;
    assert next != mut;
  }

  lemma AddedStays(t: Table, e: Entry)
    ensures Added(t, e).status == t.status
  {
  }

  lemma WriteNext(limit: nat, tables: seq<Table>, mut: nat, latest: Epoch, segs: seq<seq<Entry>>, e: Entry)
    requires Represents(limit, tables, mut, latest, segs) && latest <= e.epoch && |segs| < |tables|
    ensures Represents(limit, MovedOn(tables, mut, e), Slot(mut, |tables|, |tables| - 1), e.epoch, segs + [[e]])
  {
    var n := |tables|;
    var next := Slot(mut, n, n - 1);
    var tables', segs' := MovedOn(tables, mut, e), segs + [[e]];
    assert AgedOk(limit, tables, mut, latest, segs, n - 1);
    assert TableOk(tables'[next], [e], limit) by {
      assert TableOk(tables[next].(status := MUTABLE, oldest := e.epoch), [], limit);
      AddedOk(tables[next].(status := MUTABLE, oldest := e.epoch), [], e, limit);
      assert [] + [e] == [e];
    }
    SlotInjective(mut, n, 0, n - 1);
    hide TableOk;
    forall age | 0 <= age < n ensures AgedOk(limit, tables', next, e.epoch, segs', age) {
      if age > 0 { AgedStep(limit, tables, mut, latest, segs, e, age - 1); }
    }
    forall a, b | 0 <= a < b < |segs'| ensures Older(tables', next, a, b) {
      OlderStep(limit, tables, mut, latest, segs, e, a, b);
    }
  }

  lemma AgedStep(limit: nat, tables: seq<Table>, mut: nat, latest: Epoch, segs: seq<seq<Entry>>, e: Entry, age: nat)
    requires Represents(limit, tables, mut, latest, segs) && latest <= e.epoch && |segs| < |tables|
    requires age + 1 < |tables|
    ensures AgedOk(limit, MovedOn(tables, mut, e), Slot(mut, |tables|, |tables| - 1), e.epoch, segs + [[e]], age + 1)
  {
    hide SizeOf, Sorted;
    var n := |tables|;
    SlotNext(mut, n, age);
    SlotInjective(mut, n, age, n - 1);
    if age > 0 { SlotInjective(mut, n, age, 0); }
    assert AgedOk(limit, tables, mut, latest, segs, age);
    assert age < |segs| ==> SegAt(segs + [[e]], age + 1) == SegAt(segs, age);
  }

  lemma OlderStep(limit: nat, tables: seq<Table>, mut: nat, latest: Epoch, segs: seq<seq<Entry>>, e: Entry, a: nat,
      b: nat)
    requires Represents(limit, tables, mut, latest, segs) && latest <= e.epoch && |segs| < |tables|
    requires a < b < |segs| + 1
    ensures Older(MovedOn(tables, mut, e), Slot(mut, |tables|, |tables| - 1), a, b)
  {
    hide TableOk;
    var n := |tables|;
    SlotNext(mut, n, b - 1);
    SlotInjective(mut, n, b - 1, n - 1);
    assert AgedOk(limit, tables, mut, latest, segs, b - 1);
    if a > 0 {
      SlotNext(mut, n, a - 1);
      SlotInjective(mut, n, a - 1, n - 1);
      assert Older(tables, mut, a - 1, b - 1);
    }
  }

  // ---------------------------------------------------------------- clearing

  predicate Clears(t: Table, epoch: Epoch) {
    t.status.IMMUTABLE? && t.latest <= epoch
  }

  function Cleared(t: Table, epoch: Epoch): Table {
    if Clears(t, epoch) then t.(status := FLUSHED, size := 0, entries := []) else t
  }

  function ClearedAll(tables: seq<Table>, epoch: Epoch): seq<Table> {
    seq(|tables|, i requires 0 <= i < |tables| => Cleared(tables[i], epoch))
  }

  /** The tables younger than `age`, save the mutable one, have been cleared. */
  ghost predicate ClearedBelow(before: seq<Table>, tables: seq<Table>, mut: nat, epoch: Epoch, age: nat) {
    && |tables| == |before| && mut < |before|
    && (forall k :: 0 <= k < |before| ==>
          tables[k] == if 0 < AgeOf(mut, |before|, k) < age then Cleared(before[k], epoch) else before[k])
  }

  lemma ClearNone(before: seq<Table>, mut: nat, epoch: Epoch)
    requires mut < |before|
    ensures ClearedBelow(before, before, mut, epoch, 1)
  {
  }

  lemma ClearNext(before: seq<Table>, tables: seq<Table>, mut: nat, epoch: Epoch, age: nat)
    requires ClearedBelow(before, tables, mut, epoch, age) && 0 < age < |before|
    ensures var i := Slot(mut, |before|, age);
            i < |tables| && ClearedBelow(before, tables[i := Cleared(tables[i], epoch)], mut, epoch, age + 1)
  {
  }

  /** Clearing every table but the mutable one, which is never cleared, clears them all. */
  lemma ClearedByAge(before: seq<Table>, tables: seq<Table>, mut: nat, epoch: Epoch)
    requires ClearedBelow(before, tables, mut, epoch, |before|) && before[mut].status.MUTABLE?
    ensures tables == ClearedAll(before, epoch) && tables[mut].status.MUTABLE?
  {
  }

  /** How many of the live tables, oldest first, a clear flushes. */
  ghost function Flushed(tables: seq<Table>, mut: nat, live: nat, epoch: Epoch): (j: nat)
    requires mut < |tables| && 1 <= live <= |tables|
    ensures j < live
    decreases live
  {
    if live > 1 && Clears(tables[Slot(mut, |tables|, live - 1)], epoch) then
      1 + Flushed(tables, mut, live - 1, epoch)
    else 0
  }

  /** The flushed tables are exactly the immutable ones not newer than the epoch; they are the oldest. */
  lemma {:induction false} FlushedAges(tables: seq<Table>, mut: nat, live: nat, epoch: Epoch, age: nat)
    requires mut < |tables| && 1 <= live <= |tables| && age < live
    requires forall a, b :: 0 <= a < b < live ==> Older(tables, mut, a, b)
    requires forall a :: 0 < a < live ==> tables[Slot(mut, |tables|, a)].status.IMMUTABLE?
    requires tables[mut].status.MUTABLE?
    ensures Clears(tables[Slot(mut, |tables|, age)], epoch) <==> age >= live - Flushed(tables, mut, live, epoch)
    decreases live
  {
    assert Slot(mut, |tables|, 0) == mut;
    if live > 1 {
      if Clears(tables[Slot(mut, |tables|, live - 1)], epoch) {
        if age < live - 1 { FlushedAges(tables, mut, live - 1, epoch, age); }
      } else if age < live - 1 {
        assert Older(tables, mut, age, live - 1);
      }
    }
  }

  lemma ClearKeeps(limit: nat, tables: seq<Table>, mut: nat, latest: Epoch, segs: seq<seq<Entry>>, epoch: Epoch)
    requires Represents(limit, tables, mut, latest, segs)
    ensures Represents(limit, ClearedAll(tables, epoch), mut, latest, segs[Flushed(tables, mut, |segs|, epoch)..])
  {
    var n, j := |tables|, Flushed(tables, mut, |segs|, epoch);
    var tables', segs' := ClearedAll(tables, epoch), segs[j..];
    LiveShape(limit, tables, mut, latest, segs);
    forall age | 0 <= age < n ensures AgedOk(limit, tables', mut, latest, segs', age) {
      assert AgedOk(limit, tables, mut, latest, segs, age);
      if age < |segs| { FlushedAges(tables, mut, |segs|, epoch, age); }
      assert age < |segs'| ==> SegAt(segs', age) == SegAt(segs, age);
    }
    forall a, b | 0 <= a < b < |segs'| ensures Older(tables', mut, a, b) {
      assert Older(tables, mut, a, b);
    }
  }

  /** Some write of the segment is newer than the epoch. */
  ghost predicate HasNewer(seg: seq<Entry>, epoch: Epoch) {
    exists x :: x in seg && x.epoch > epoch
  }

  lemma KeptAreNew(limit: nat, tables: seq<Table>, mut: nat, latest: Epoch, segs: seq<seq<Entry>>, epoch: Epoch, i: nat)
    requires Represents(limit, tables, mut, latest, segs)
    requires Flushed(tables, mut, |segs|, epoch) <= i < |segs| - 1 && segs[i] != []
    ensures HasNewer(segs[i], epoch)
  {
    var age := |segs| - 1 - i;
    LiveShape(limit, tables, mut, latest, segs);
    FlushedAges(tables, mut, |segs|, epoch, age);
    assert AgedOk(limit, tables, mut, latest, segs, age);
    hide Sorted, SizeOf;
  }

  lemma LiveShape(limit: nat, tables: seq<Table>, mut: nat, latest: Epoch, segs: seq<seq<Entry>>)
    requires Represents(limit, tables, mut, latest, segs)
    ensures tables[mut].status.MUTABLE?
    ensures forall a :: 0 < a < |segs| ==> tables[Slot(mut, |tables|, a)].status.IMMUTABLE?
  {
    hide TableOk;
    assert Slot(mut, |tables|, 0) == mut;
    assert AgedOk(limit, tables, mut, latest, segs, 0);
    forall a | 0 < a < |segs| ensures tables[Slot(mut, |tables|, a)].status.IMMUTABLE? {
      assert AgedOk(limit, tables, mut, latest, segs, a);
    }
  }

  // ---------------------------------------------------------------- reading

  function Found(log: seq<Entry>, key: Bytes, epoch: Epoch): Option<Entry> {
    var i := LastAt(log, key, epoch);
    if i >= 0 then Some(log[i]) else None
  }

  lemma FoundConcat(a: seq<Entry>, b: seq<Entry>, key: Bytes, epoch: Epoch)
    ensures Found(a + b, key, epoch) == if Found(b, key, epoch).Some?
                                        then Found(b, key, epoch) else Found(a, key, epoch)
  {
    LastAtConcat(a, b, key, epoch);
    hide LastAt;
  }

  /** If no younger segment has a match, what is found at some age is what is found in the whole log. */
  lemma {:induction false} FirstFound(segs: seq<seq<Entry>>, age: nat, key: Bytes, epoch: Epoch)
    requires age < |segs| && Found(SegAt(segs, age), key, epoch).Some?
    requires forall a :: 0 <= a < age ==> Found(SegAt(segs, a), key, epoch).None?
    ensures Found(Flat(segs), key, epoch) == Found(SegAt(segs, age), key, epoch)
    decreases |segs|
  {
    var init, last := segs[..|segs| - 1], segs[|segs| - 1];
    FlatLast(segs);
    FoundConcat(Flat(init), last, key, epoch);
    assert SegAt(segs, 0) == last;
    assert forall a :: 0 <= a < |init| ==> SegAt(init, a) == SegAt(segs, a + 1);
    hide Flat, Found, SegAt;
    if age > 0 { FirstFound(init, age - 1, key, epoch); }
  }

  lemma FirstHitIsLast(segs: seq<seq<Entry>>, age: nat, key: Bytes, epoch: Epoch)
    requires age < |segs| && LastAt(SegAt(segs, age), key, epoch) >= 0
    requires forall a :: 0 <= a < age ==> LastAt(SegAt(segs, a), key, epoch) < 0
    ensures var i := LastAt(Flat(segs), key, epoch);
            i >= 0 && Flat(segs)[i] == SegAt(segs, age)[LastAt(SegAt(segs, age), key, epoch)]
  {
    hide Flat, LastAt, SegAt;
    FirstFound(segs, age, key, epoch);
  }

  lemma {:induction false} NoHit(segs: seq<seq<Entry>>, key: Bytes, epoch: Epoch)
    requires forall a :: 0 <= a < |segs| ==> LastAt(SegAt(segs, a), key, epoch) < 0
    ensures LastAt(Flat(segs), key, epoch) == -1
    decreases |segs|
  {
    if segs != [] {
      var init, last := segs[..|segs| - 1], segs[|segs| - 1];
      FlatLast(segs);
      LastAtConcat(Flat(init), last, key, epoch);
      assert SegAt(segs, 0) == last;
      assert forall a :: 0 <= a < |init| ==> SegAt(init, a) == SegAt(segs, a + 1);
      hide Flat, LastAt, SegAt;
      NoHit(init, key, epoch);
    }
  }

  lemma Parts(a: seq<Entry>, b: seq<Entry>)
    requires Ascending(a + b) && Distinct(a + b)
    ensures Ascending(a) && Distinct(a) && Ascending(b) && Distinct(b)
  {
    var whole := a + b;
    assert forall k :: 0 <= k < |a| ==> a[k] == whole[k];
    assert forall k :: 0 <= k < |b| ==> b[k] == whole[|a| + k];
  }

  /** Segments of an ascending log without duplicates have these properties too. */
  lemma {:induction false} SegmentOf(segs: seq<seq<Entry>>, i: nat)
    requires i < |segs| && Ascending(Flat(segs)) && Distinct(Flat(segs))
    ensures Ascending(segs[i]) && Distinct(segs[i])
    decreases |segs|
  {
    FlatLast(segs);
    hide Ascending, Distinct, Flat;
    Parts(Flat(segs[..|segs| - 1]), segs[|segs| - 1]);
    if i < |segs| - 1 { SegmentOf(segs[..|segs| - 1], i); }
  }

  /** What one live table answers: the last write of its segment; a table that starts too late has none. */
  lemma TableAnswer(limit: nat, tables: seq<Table>, mut: nat, latest: Epoch, segs: seq<seq<Entry>>,
                    age: nat, key: Bytes, epoch: Epoch)
    requires Represents(limit, tables, mut, latest, segs) && age < |segs|
    requires Ascending(Flat(segs)) && Distinct(Flat(segs))
    ensures var t, seg := tables[Slot(mut, |tables|, age)], SegAt(segs, age);
            var i := LastAt(seg, key, epoch);
            && TableGet(t.entries, key, epoch) == (if i >= 0 then Some(seg[i]) else None)
            && (epoch < t.oldest ==> i < 0)
  {
    hide Ascending, Distinct, Sorted, LastAt, TableGet, SizeOf;
    assert AgedOk(limit, tables, mut, latest, segs, age);
    var t, seg := tables[Slot(mut, |tables|, age)], SegAt(segs, age);
    SegmentOf(segs, |segs| - 1 - age);
    TableGetIsLast(t.entries, seg, key, epoch);
    var i := LastAt(seg, key, epoch);
    assert i >= 0 ==> seg[i] in seg;
  }

  /** An entry of the flushed segments is not newer than the epoch of the clear. */
  lemma {:induction false} FlatSource(segs: seq<seq<Entry>>, x: Entry) returns (i: nat)
    requires x in Flat(segs)
    ensures i < |segs| && x in segs[i]
    decreases |segs|
  {
    if x in segs[|segs| - 1] { i := |segs| - 1; } else { i := FlatSource(segs[..|segs| - 1], x); }
  }

  lemma FlushedAreOld(limit: nat, tables: seq<Table>, mut: nat, latest: Epoch, segs: seq<seq<Entry>>, epoch: Epoch,
      x: Entry)
    requires Represents(limit, tables, mut, latest, segs)
    requires x in Flat(segs[..Flushed(tables, mut, |segs|, epoch)])
    ensures x.epoch <= epoch
  {
    var i := FlatSource(segs[..Flushed(tables, mut, |segs|, epoch)], x);
    var age := |segs| - 1 - i;
    LiveShape(limit, tables, mut, latest, segs);
    FlushedAges(tables, mut, |segs|, epoch, age);
    assert AgedOk(limit, tables, mut, latest, segs, age);
  }

  lemma FlatExtend(segs: seq<seq<Entry>>, e: Entry)
    requires segs != []
    ensures Flat(segs[..|segs| - 1] + [SegAt(segs, 0) + [e]]) == Flat(segs) + [e]
  {
    var init, last := segs[..|segs| - 1], segs[|segs| - 1];
    FlatAppend(init, last + [e]);
    assert Flat(segs) == Flat(init) + last;
    hide Flat;
    assert Flat(init) + (last + [e]) == Flat(init) + last + [e];
  }

  /** A new entry of a log without repetitions differs from everything still in the ring. */
  lemma NewEntryDiffers(log: seq<Entry>, n: nat, segs: seq<seq<Entry>>, e: Entry)
    requires n <= |log| && log[n..] == Flat(segs) && segs != [] && Distinct(log + [e])
    ensures forall x :: x in SegAt(segs, 0) ==> x.key != e.key || x.epoch != e.epoch
  {
    forall x | x in SegAt(segs, 0) ensures x.key != e.key || x.epoch != e.epoch {
      FlatMembers(segs, |segs| - 1, x);
      var i :| 0 <= i < |log[n..]| && log[n..][i] == x;
      assert (log + [e])[n + i] == x && (log + [e])[|log|] == e;
    }
  }

  function LatestOf(log: seq<Entry>): Epoch {
    if log == [] then 0 else log[|log| - 1].epoch
  }

  ghost predicate Ordered(log: seq<Entry>) {
    Ascending(log) && Distinct(log)
  }

  lemma OrderedParts(log: seq<Entry>, e: Entry)
    requires Ordered(log + [e])
    ensures Ordered(log) && LatestOf(log) <= e.epoch
  {
    var whole := log + [e];
    assert forall k :: 0 <= k < |log| ==> whole[k] == log[k];
    assert whole[|log|] == e;
  }

  lemma OrderedRest(log: seq<Entry>, n: nat)
    requires Ordered(log) && n <= |log|
    ensures Ordered(log[n..])
  {
  }

  /** The ring holds the log from position `flushed` on, cut up into segments. */
  ghost predicate RingOf(limit: nat, tables: seq<Table>, mut: nat, log: seq<Entry>, flushed: nat,
      segs: seq<seq<Entry>>) {
    && mut < |tables| && flushed <= |log|
    && tables[mut].oldest <= LatestOf(log)
    && log[flushed..] == Flat(segs)
    && Represents(limit, tables, mut, LatestOf(log), segs)
  }

  lemma WriteFits(limit: nat, tables: seq<Table>, mut: nat, log: seq<Entry>, flushed: nat, segs: seq<seq<Entry>>,
      e: Entry)
    requires RingOf(limit, tables, mut, log, flushed, segs) && Ordered(log + [e])
    requires tables[mut].size + EntrySize(e) <= limit
    ensures segs != []
    ensures RingOf(limit, tables[mut := Added(tables[mut], e)], mut, log + [e], flushed,
                   segs[..|segs| - 1] + [SegAt(segs, 0) + [e]])
  {
    OrderedParts(log, e);
    NewEntryDiffers(log, flushed, segs, e);
    FlatExtend(segs, e);
    WriteInPlace(limit, tables, mut, LatestOf(log), segs, e);
    hide Represents, Ordered, Ascending, Distinct, Flat;
    assert (log + [e])[flushed..] == log[flushed..] + [e];
  }

  lemma WriteMovesOn(limit: nat, tables: seq<Table>, mut: nat, log: seq<Entry>, flushed: nat, segs: seq<seq<Entry>>,
      e: Entry)
    requires RingOf(limit, tables, mut, log, flushed, segs) && Ordered(log + [e])
    requires tables[Slot(mut, |tables|, |tables| - 1)].status.FLUSHED?
    ensures RingOf(limit, MovedOn(tables, mut, e), Slot(mut, |tables|, |tables| - 1), log + [e], flushed, segs + [[e]])
  {
    OrderedParts(log, e);
    FullIff(limit, tables, mut, log, flushed, segs);
    FlatAppend(segs, [e]);
    WriteNext(limit, tables, mut, LatestOf(log), segs, e);
    hide Represents, Ordered, Ascending, Distinct, Flat;
    assert (log + [e])[flushed..] == log[flushed..] + [e];
  }

  /** The next table of the ring is free exactly when some table is. */
  lemma FullIff(limit: nat, tables: seq<Table>, mut: nat, log: seq<Entry>, flushed: nat, segs: seq<seq<Entry>>)
    requires RingOf(limit, tables, mut, log, flushed, segs)
    ensures tables[Slot(mut, |tables|, |tables| - 1)].status.FLUSHED? <==> |segs| < |tables|
  {
    hide TableOk, Flat;
    assert AgedOk(limit, tables, mut, LatestOf(log), segs, |tables| - 1);
  }

  lemma ClearMovesPrefix(limit: nat, tables: seq<Table>, mut: nat, log: seq<Entry>, flushed: nat, segs: seq<seq<Entry>>,
                         epoch: Epoch) returns (flushed': nat, segs': seq<seq<Entry>>)
    requires RingOf(limit, tables, mut, log, flushed, segs)
    ensures flushed <= flushed' <= |log| && RingOf(limit, ClearedAll(tables, epoch), mut, log, flushed', segs')
    ensures forall k :: flushed <= k < flushed' ==> log[k].epoch <= epoch
    ensures forall i :: 0 <= i < |segs'| - 1 && segs'[i] != [] ==> HasNewer(segs'[i], epoch)
  {
    var j := Flushed(tables, mut, |segs|, epoch);
    forall i | j <= i < |segs| - 1 && segs[i] != [] ensures HasNewer(segs[i], epoch) {
      KeptAreNew(limit, tables, mut, LatestOf(log), segs, epoch, i);
    }
    hide HasNewer;
    ClearKeeps(limit, tables, mut, LatestOf(log), segs, epoch);
    FlatSplit(segs, j);
    var gone := Flat(segs[..j]);
    forall k | 0 <= k < |gone| ensures gone[k].epoch <= epoch {
      FlushedAreOld(limit, tables, mut, LatestOf(log), segs, epoch, gone[k]);
    }
    LiveShape(limit, tables, mut, LatestOf(log), segs);
    assert forall k :: 0 <= k < |gone| ==> log[flushed..][k] == gone[k];
    flushed', segs' := flushed + |gone|, segs[j..];
    hide Represents, Flat;
    assert log[flushed'..] == log[flushed..][|gone|..];
    assert forall k :: flushed <= k < flushed' ==> log[k] == log[flushed..][k - flushed];
  }

  /** Scanning from the mutable table back to the first flushed one finds what the log would answer. */
  lemma ScanHit(limit: nat, tables: seq<Table>, mut: nat, log: seq<Entry>, flushed: nat, segs: seq<seq<Entry>>,
                age: nat, key: Bytes, cap: Epoch)
    requires RingOf(limit, tables, mut, log, flushed, segs) && Ordered(log) && age < |segs|
    requires forall a :: 0 <= a < age ==> LastAt(SegAt(segs, a), key, cap) < 0
    requires TableGet(tables[Slot(mut, |tables|, age)].entries, key, cap).Some?
    ensures var i := LastAt(log, key, cap);
            i >= flushed && TableGet(tables[Slot(mut, |tables|, age)].entries, key, cap) == Some(log[i])
  {
    hide Represents, Ordered, Ascending, Distinct, TableGet;
    ScanTable(limit, tables, mut, log, flushed, segs, age, key, cap);
    FirstHitIsLast(segs, age, key, cap);
    NeverAnOlderVersion(log, flushed, key, cap);
    hide Flat, LastAt;
    var i := LastAt(log, key, cap);
    assert log[i] == log[flushed..][i - flushed];
  }

  lemma ScanTable(limit: nat, tables: seq<Table>, mut: nat, log: seq<Entry>, flushed: nat, segs: seq<seq<Entry>>,
                  age: nat, key: Bytes, cap: Epoch)
    requires RingOf(limit, tables, mut, log, flushed, segs) && Ordered(log) && age < |segs|
    ensures var t, seg := tables[Slot(mut, |tables|, age)], SegAt(segs, age);
            var i := LastAt(seg, key, cap);
            && TableGet(t.entries, key, cap) == (if i >= 0 then Some(seg[i]) else None)
            && (cap < t.oldest ==> i < 0)
  {
    hide TableGet, LastAt, TableOk;
    OrderedRest(log, flushed);
    TableAnswer(limit, tables, mut, LatestOf(log), segs, age, key, cap);
  }

  lemma ScanMiss(limit: nat, tables: seq<Table>, mut: nat, log: seq<Entry>, flushed: nat, segs: seq<seq<Entry>>,
                 age: nat, key: Bytes, cap: Epoch)
    requires RingOf(limit, tables, mut, log, flushed, segs) && age <= |segs|
    requires age < |tables| ==> tables[Slot(mut, |tables|, age)].status.FLUSHED?
    requires forall a :: 0 <= a < age ==> LastAt(SegAt(segs, a), key, cap) < 0
    ensures LastAt(log, key, cap) < flushed
  {
    hide TableOk;
    LiveIff(limit, tables, mut, log, flushed, segs, age);
    NoHit(segs, key, cap);
    NeverAnOlderVersion(log, flushed, key, cap);
  }

  /** A table is flushed exactly when it is older than every segment. */
  lemma LiveIff(limit: nat, tables: seq<Table>, mut: nat, log: seq<Entry>, flushed: nat, segs: seq<seq<Entry>>,
      age: nat)
    requires RingOf(limit, tables, mut, log, flushed, segs)
    ensures age < |tables| ==> (tables[Slot(mut, |tables|, age)].status.FLUSHED? <==> age >= |segs|)
  {
    hide TableOk, Flat;
    if age < |tables| { assert AgedOk(limit, tables, mut, LatestOf(log), segs, age); }
  }

  /** What the last write at or before an epoch lets a reader see, once a prefix of the log is flushed. */
  function Answer(log: seq<Entry>, flushed: nat, key: Bytes, epoch: Option<Epoch>): (Option<Bytes>, Epoch) {
    var i := LastAt(log, key, if epoch.Some? then epoch.value else LatestOf(log));
    if i >= flushed && !log[i].deleted then (Some(log[i].val), log[i].epoch)
    else (None, if epoch.Some? then epoch.value else 0)
  }

  /** The write is the last one of the key that a reader at the epoch, or without one, may see. */
  ghost predicate LastSeen(log: seq<Entry>, key: Bytes, epoch: Option<Epoch>, i: int) {
    && 0 <= i < |log| && log[i].key == key && (epoch.Some? ==> log[i].epoch <= epoch.value)
    && forall j :: i < j < |log| && log[j].key == key ==> epoch.Some? && log[j].epoch > epoch.value
  }

  /**
   * What a reader is told: the last write it may see if there is one, it was not flushed and it is not a
   * deletion; a deletion is answered with nothing, as is a key never written.
   */
  lemma AnswerIsLastSeen(log: seq<Entry>, flushed: nat, key: Bytes, epoch: Option<Epoch>)
    requires Ordered(log)
    ensures forall i :: LastSeen(log, key, epoch, i) ==>
              Answer(log, flushed, key, epoch) ==
                if i < flushed || log[i].deleted then (None, if epoch.Some? then epoch.value else 0)
                else (Some(log[i].val), log[i].epoch)
    ensures Answer(log, flushed, key, epoch).0.Some? ==>
              exists i :: LastSeen(log, key, epoch, i) && i >= flushed && !log[i].deleted
  {
    hide LastAt;
    var cap := if epoch.Some? then epoch.value else LatestOf(log);
    var l := LastAt(log, key, cap);
    assert epoch.None? ==> forall k :: 0 <= k < |log| ==> log[k].epoch <= cap;
    if l >= 0 { assert LastSeen(log, key, epoch, l); }
    forall i | LastSeen(log, key, epoch, i) ensures i == l { assert Matches(log[i], key, cap); }
  }

  /**
   * Capping the epoch at the one of the latest write, as a lookup does, changes the last write it finds
   * if and only if that write is of a later epoch; this holds for writers in any order.
   */
  lemma CappedEpochIff(log: seq<Entry>, key: Bytes, epoch: Epoch)
    ensures var i := LastAt(log, key, epoch);
            LastAt(log, key, if epoch <= LatestOf(log) then epoch else LatestOf(log)) == i
            <==> (i >= 0 ==> log[i].epoch <= LatestOf(log))
  {
    hide LastAt;
    var cap := if epoch <= LatestOf(log) then epoch else LatestOf(log);
    var i, c := LastAt(log, key, epoch), LastAt(log, key, cap);
    assert c >= 0 ==> Matches(log[c], key, epoch);
  }

  /** For an ordered writer it never does. */
  lemma CappedEpoch(log: seq<Entry>, key: Bytes, epoch: Epoch)
    requires Ordered(log)
    ensures LastAt(log, key, if epoch <= LatestOf(log) then epoch else LatestOf(log)) == LastAt(log, key, epoch)
  {
    hide LastAt;
    CappedEpochIff(log, key, epoch);
  }

  /**
   * A writer that goes back in epochs with another key hides its last write: a reader at that write's
   * epoch should see it, and its table finds nothing at the capped epoch.
   */
  lemma BackwardWriterHidesVersion(x: Entry, y: Entry)
    requires x.key != y.key && y.epoch < x.epoch && !x.deleted
    ensures var log, es := [x, y], Insert(Insert([], x), y);
            && x in es && Answer(log, 0, x.key, Some(x.epoch)) == (Some(x.val), x.epoch)
            && LatestOf(log) < x.epoch && TableGet(es, x.key, LatestOf(log)) == None
  {
    var log, es := [x, y], Insert(Insert([], x), y);
    InsertMembers([], x);
    InsertSorted([], x);
    InsertMembers(Insert([], x), y);
    InsertSorted(Insert([], x), y);
    TableGetIsNewest(es, x.key, y.epoch);
    assert log[1] == y && log[0] == x;
    hide LastAt;
    assert LastAt(log, x.key, x.epoch) == 0;
  }
}

/** The cache itself. */
module MemTableDBs {
  import opened Base
  import opened MemTables
  import opened MemTableRing

  class MemTableDB {
    const numWriteBuffers: nat
    const writeBufferSize: nat
    var memtables: seq<Table>
    var mutMemtableIdx: nat
    var latestEpoch: Epoch

    /** Every accepted write; how many of them were flushed; how the tables cut up the rest. */
    ghost var log: seq<Entry>
    ghost var flushed: nat
    ghost var segments: seq<seq<Entry>>

    /** For a writer that keeps its epochs in order the ring is the unflushed rest of the log. */
    ghost predicate Valid()
      reads this
    {
      && |memtables| == numWriteBuffers && mutMemtableIdx < numWriteBuffers
      && memtables[mutMemtableIdx].status.MUTABLE?
      && flushed <= |log| && latestEpoch == LatestOf(log)
      && (Ordered(log) ==> RingOf(writeBufferSize, memtables, mutMemtableIdx, log, flushed, segments))
    }

    constructor (numWriteBuffers: nat, writeBufferSize: nat)
      requires numWriteBuffers >= 1
      ensures Valid() && log == [] && flushed == 0
      ensures this.numWriteBuffers == numWriteBuffers && this.writeBufferSize == writeBufferSize
    {
      this.numWriteBuffers := numWriteBuffers;
      this.writeBufferSize := writeBufferSize;
      mutMemtableIdx, latestEpoch := 0, 0;
      log, flushed, segments := [], 0, [[]];
      var tables: seq<Table> := [];
      for i := 0 to numWriteBuffers
        invariant |tables| == i && forall k :: 0 <= k < i ==> tables[k] == EMPTY_TABLE
      {
        tables := tables + [EMPTY_TABLE];
      }
      memtables := tables[0 := tables[0].(status := MUTABLE)];
      new;
      assert forall age :: 0 <= age < |memtables| ==> AgedOk(writeBufferSize, memtables, 0, 0, segments, age);
    }

    /** The entry does not fit and the next table of the ring is in use. */
    ghost predicate Full(e: Entry)
      requires Valid()
      reads this
    {
      && memtables[mutMemtableIdx].size + EntrySize(e) > writeBufferSize
      && !memtables[Slot(mutMemtableIdx, numWriteBuffers, numWriteBuffers - 1)].status.FLUSHED?
    }

    /** Accepts the write unless the ring is full; a refused write changes nothing. */
    method UpsertOrDelete(key: Bytes, epoch: Epoch, deleted: bool, val: Bytes) returns (accepted: bool)
      requires Valid()
      modifies this
      ensures Valid() && flushed == old(flushed)
      ensures accepted <==> !old(Full(Entry(key, val, epoch, deleted)))
      ensures accepted <==>
                || old(memtables[mutMemtableIdx]).size + |key| + |val| + 9 <= writeBufferSize
                || old(memtables[(mutMemtableIdx + 1) % numWriteBuffers]).status.FLUSHED?
      ensures accepted ==> log == old(log) + [Entry(key, val, epoch, deleted)]
      ensures !accepted ==> unchanged(this)
      ensures !accepted && Ordered(log) ==> |segments| >= numWriteBuffers
    {
      hide RingOf, Ordered, Added, MovedOn, SegAt;
      var e := Entry(key, val, epoch, deleted);
      if Ordered(log + [e]) { OrderedParts(log, e); }
      SlotMod(mutMemtableIdx, numWriteBuffers, 0);
      if memtables[mutMemtableIdx].size + EntrySize(e) > writeBufferSize {
        var oldId := mutMemtableIdx;
        var newId := (mutMemtableIdx + 1) % numWriteBuffers;
        if !memtables[newId].status.FLUSHED? {
          if Ordered(log) { FullIff(writeBufferSize, memtables, mutMemtableIdx, log, flushed, segments); }
          return false;
        }
        if Ordered(log + [e]) {
          WriteMovesOn(writeBufferSize, memtables, mutMemtableIdx, log, flushed, segments, e);
        }
        mutMemtableIdx := newId;
        memtables := memtables[newId := memtables[newId].(status := MUTABLE)];
        memtables := memtables[oldId := memtables[oldId].(status := IMMUTABLE)];
        memtables := memtables[newId := memtables[newId].(oldest := epoch)];
        segments := segments + [[e]];
        MovingOn(old(memtables), oldId, newId, e);
      } else {
        if Ordered(log + [e]) {
          WriteFits(writeBufferSize, memtables, mutMemtableIdx, log, flushed, segments, e);
        }
        segments := if segments == [] then [] else segments[..|segments| - 1] + [SegAt(segments, 0) + [e]];
      }
      AddedStays(memtables[mutMemtableIdx], e);
      memtables := memtables[mutMemtableIdx := Added(memtables[mutMemtableIdx], e)];
      latestEpoch := epoch;
      log := log + [e];
      accepted := true;
    }

    method Upsert(key: Bytes, val: Bytes, epoch: Epoch) returns (accepted: bool)
      requires Valid()
      modifies this
      ensures Valid() && flushed == old(flushed)
      ensures accepted <==> !old(Full(Entry(key, val, epoch, false)))
      ensures accepted ==> log == old(log) + [Entry(key, val, epoch, false)]
      ensures !accepted ==> unchanged(this)
    {
      accepted := UpsertOrDelete(key, epoch, false, val);
    }

    method Delete(key: Bytes, epoch: Epoch) returns (accepted: bool)
      requires Valid()
      modifies this
      ensures Valid() && flushed == old(flushed)
      ensures accepted <==> !old(Full(Entry(key, [], epoch, true)))
      ensures accepted ==> log == old(log) + [Entry(key, [], epoch, true)]
      ensures !accepted ==> unchanged(this)
    {
      accepted := UpsertOrDelete(key, epoch, true, []);
    }

    /**
     * For a writer in order, the answer is that of the last write at or before the epoch over the WHOLE
     * log, or nothing if that write was a deletion or has been flushed: never an older version.
     */
    method Get(key: Bytes, epoch: Option<Epoch>) returns (val: Option<Bytes>, at: Epoch)
      requires Valid()
      ensures Ordered(log) ==> (val, at) == Answer(log, flushed, key, epoch)
      ensures Ordered(log) ==> forall i :: LastSeen(log, key, epoch, i) ==>
                (val == if i < flushed || log[i].deleted then None else Some(log[i].val))
                && (val.Some? ==> at == log[i].epoch)
      ensures Ordered(log) && val.Some? ==> exists i :: LastSeen(log, key, epoch, i)
    {
      if Ordered(log) { AnswerIsLastSeen(log, flushed, key, epoch); }
      hide RingOf, Ordered, LastAt, LowerBound, LastSeen;
      var cap := latestEpoch;
      if epoch.Some? && epoch.value <= latestEpoch { cap := epoch.value; }
      if Ordered(log) && epoch.Some? { CappedEpoch(log, key, epoch.value); }
      var i := 0;
      while i < numWriteBuffers
        invariant i <= numWriteBuffers
        invariant Ordered(log) ==> i <= |segments|
        invariant Ordered(log) ==> forall a :: 0 <= a < i ==> LastAt(SegAt(segments, a), key, cap) < 0
      {
        SlotMod(mutMemtableIdx, numWriteBuffers, i);
        var idx := (mutMemtableIdx + numWriteBuffers - i) % numWriteBuffers;
        if memtables[idx].status.FLUSHED? { break; }
        if Ordered(log) {
          LiveIff(writeBufferSize, memtables, mutMemtableIdx, log, flushed, segments, i);
          ScanTable(writeBufferSize, memtables, mutMemtableIdx, log, flushed, segments, i, key, cap);
        }
        if memtables[idx].oldest <= cap {
          var result := LowerBound(memtables[idx].entries, Entry(key, [], cap, false));
          if result.Some? && result.value.key == key {
            if Ordered(log) {
              ScanHit(writeBufferSize, memtables, mutMemtableIdx, log, flushed, segments, i, key, cap);
            }
            if result.value.deleted {
              return None, if epoch.Some? then epoch.value else 0;
            } else {
              return Some(result.value.val), result.value.epoch;
            }
          }
        }
        i := i + 1;
      }
      if Ordered(log) { ScanMiss(writeBufferSize, memtables, mutMemtableIdx, log, flushed, segments, i, key, cap); }
      return None, if epoch.Some? then epoch.value else 0;
    }

    /**
     * Flushes every immutable table not newer than the epoch. For a writer in order this moves the
     * flushed prefix of the log forward over writes of epochs up to the given one, and nothing else.
     */
    method Clear(epoch: Epoch)
      requires Valid()
      modifies `memtables, `flushed, `segments
      ensures Valid() && memtables == ClearedAll(old(memtables), epoch)
      ensures forall i :: 0 <= i < |memtables| ==>
                var was, now := old(memtables)[i], memtables[i];
                if was.status.IMMUTABLE? && was.latest <= epoch
                then now.status.FLUSHED? && now.size == 0 && now.entries == []
                else now == was
      ensures old(flushed) <= flushed
      ensures Ordered(log) ==> forall k :: old(flushed) <= k < flushed ==> log[k].epoch <= epoch
      ensures Ordered(log) ==>
                forall i :: 0 <= i < |segments| - 1 && segments[i] != [] ==> HasNewer(segments[i], epoch)
    {
      hide RingOf, Ordered, ClearedBelow, HasNewer;
      ghost var before := memtables;
      assert ClearedBelow(before, memtables, mutMemtableIdx, epoch, 1) by { ClearNone(before, mutMemtableIdx, epoch); }
      var i := 1;
      while i < numWriteBuffers
        invariant 1 <= i <= numWriteBuffers && |memtables| == numWriteBuffers
        invariant ClearedBelow(before, memtables, mutMemtableIdx, epoch, i)
        invariant flushed == old(flushed) && segments == old(segments)
      {
        SlotMod(mutMemtableIdx, numWriteBuffers, i);
        var id := (mutMemtableIdx + numWriteBuffers - i) % numWriteBuffers;
        ghost var was := memtables;
        ClearNext(before, was, mutMemtableIdx, epoch, i);
        if memtables[id].status.IMMUTABLE? && epoch >= memtables[id].latest {
          memtables := memtables[id := memtables[id].(status := FLUSHED)];
          memtables := memtables[id := memtables[id].(size := 0)];
          memtables := memtables[id := memtables[id].(entries := [])];
        }
        assert memtables == was[id := Cleared(was[id], epoch)];
        i := i + 1;
      }
      ClearedByAge(before, memtables, mutMemtableIdx, epoch);
      if Ordered(log) {
        flushed, segments := ClearMovesPrefix(writeBufferSize, before, mutMemtableIdx, log, flushed, segments, epoch);
        assert RingOf(writeBufferSize, memtables, mutMemtableIdx, log, flushed, segments);
      }
    }
  }
}
