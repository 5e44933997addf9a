/** Entries of a memtable, their order and their lookup (rangeserver/src/cache/memtabledb.rs). */
module MemTables {
  import opened Base

  datatype Entry = Entry(key: Bytes, val: Bytes, epoch: Epoch, deleted: bool)

  /** Key ascending, then epoch descending: of one key the newest version comes first. */
  predicate Before(a: Entry, b: Entry) {
    Less(a.key, b.key) || (a.key == b.key && b.epoch < a.epoch)
  }

  lemma BeforeTransitive(a: Entry, b: Entry, c: Entry)
    requires Before(a, b) && Before(b, c)
    ensures Before(a, c)
  {
    if Less(a.key, b.key) && Less(b.key, c.key) { LessTransitive(a.key, b.key, c.key); }
  }

  lemma BeforeTotal(a: Entry, b: Entry)
    ensures !(Before(a, b) && Before(b, a))
    ensures Before(a, b) || Before(b, a) || (a.key == b.key && a.epoch == b.epoch)
  {
    LessTotal(a.key, b.key);
  }

  ghost predicate Sorted(es: seq<Entry>) {
    forall i, j :: 0 <= i < j < |es| ==> Before(es[i], es[j])
  }

  /** No key is written twice at one epoch. */
  ghost predicate Distinct(es: seq<Entry>) {
    forall i, j :: 0 <= i < j < |es| ==> es[i].key != es[j].key || es[i].epoch != es[j].epoch
  }

  function Insert(es: seq<Entry>, e: Entry): seq<Entry>
    decreases |es|
  {
    if es == [] || Before(e, es[0]) then [e] + es else [es[0]] + Insert(es[1..], e)
  }

  lemma {:induction false} InsertMembers(es: seq<Entry>, e: Entry)
    ensures forall x :: x in Insert(es, e) <==> x == e || x in es
    decreases |es|
  {
    if es != [] {
      InsertMembers(es[1..], e);
      assert es == [es[0]] + es[1..];
    }
  }

  lemma {:induction false} InsertSorted(es: seq<Entry>, e: Entry)
    requires Sorted(es) && forall x :: x in es ==> x.key != e.key || x.epoch != e.epoch
    ensures Sorted(Insert(es, e))
    decreases |es|
  {
    if es != [] {
      if Before(e, es[0]) {
        forall j | 0 <= j < |es| ensures Before(e, es[j]) {
          if j > 0 { BeforeTransitive(e, es[0], es[j]); }
        }
      } else {
        BeforeTotal(e, es[0]);
        assert es[0] in es;
        InsertSorted(es[1..], e);
        InsertMembers(es[1..], e);
        var rest := Insert(es[1..], e);
        forall j | 0 <= j < |rest| ensures Before(es[0], rest[j]) {
          assert rest[j] in rest;
          if rest[j] != e {
            var m :| 0 <= m < |es[1..]| && es[1..][m] == rest[j];
            assert es[m + 1] == rest[j];
          }
        }
      }
    }
  }

  /** The first entry that is not before `start`. */
  function LowerBound(es: seq<Entry>, start: Entry): Option<Entry>
    decreases |es|
  {
    if es == [] then None
    else if !Before(es[0], start) then Some(es[0])
    else LowerBound(es[1..], start)
  }

  /** The version of a key visible at an epoch within one table. */
  function TableGet(es: seq<Entry>, key: Bytes, epoch: Epoch): Option<Entry> {
    var found := LowerBound(es, Entry(key, [], epoch, false));
    if found.Some? && found.value.key == key then found else None
  }

  /** The lower bound lands on the newest version of the key not after the epoch, and nowhere if there is none. */
  lemma {:induction false} TableGetIsNewest(es: seq<Entry>, key: Bytes, epoch: Epoch)
    requires Sorted(es)
    ensures TableGet(es, key, epoch).Some? ==>
              var x := TableGet(es, key, epoch).value;
              x in es && x.key == key && x.epoch <= epoch
    ensures forall y :: y in es && y.key == key && y.epoch <= epoch ==>
              TableGet(es, key, epoch).Some? && y.epoch <= TableGet(es, key, epoch).value.epoch
    decreases |es|
  {
    if es != [] {
      var start := Entry(key, [], epoch, false);
      LessTotal(es[0].key, key);
      if Before(es[0], start) {
        TableGetIsNewest(es[1..], key, epoch);
        assert es == [es[0]] + es[1..];
      } else {
        forall y | y in es && y.key == key && y.epoch <= epoch
          ensures es[0].key == key && y.epoch <= es[0].epoch
        {
          var m :| 0 <= m < |es| && es[m] == y;
          assert m > 0 ==> Before(es[0], y);
        }
        assert es[0] in es;
      }
    }
  }

  // ---------------------------------------------------------------- the versioned reference

  /** A writer that never goes back in epochs. */
  ghost predicate Ascending(log: seq<Entry>) {
    forall i, j :: 0 <= i < j < |log| ==> log[i].epoch <= log[j].epoch
  }

  predicate Matches(e: Entry, key: Bytes, epoch: Epoch) {
    e.key == key && e.epoch <= epoch
  }

  /** The position of the last write to a key at or before an epoch, or -1. */
  function LastAt(log: seq<Entry>, key: Bytes, epoch: Epoch): (i: int)
    ensures -1 <= i < |log|
    ensures i >= 0 ==> Matches(log[i], key, epoch)
    ensures forall j :: i < j < |log| ==> !Matches(log[j], key, epoch)
    decreases |log|
  {
    if log == [] then -1
    else if Matches(log[|log| - 1], key, epoch) then |log| - 1
    else LastAt(log[..|log| - 1], key, epoch)
  }

  lemma LastAtConcat(a: seq<Entry>, b: seq<Entry>, key: Bytes, epoch: Epoch)
    ensures LastAt(a + b, key, epoch) ==
            if LastAt(b, key, epoch) >= 0 then |a| + LastAt(b, key, epoch) else LastAt(a, key, epoch)
  {
    assert forall j :: 0 <= j < |a| ==> (a + b)[j] == a[j];
    assert forall j :: |a| <= j < |a + b| ==> (a + b)[j] == b[j - |a|];
    var k := LastAt(b, key, epoch);
    assert k >= 0 ==> (a + b)[|a| + k] == b[k];
  }

  /**
   * Dropping a prefix of the log never uncovers an older version: what is visible in the rest is the
   * last write if that was kept, and nothing if it was dropped.
   */
  lemma NeverAnOlderVersion(log: seq<Entry>, n: nat, key: Bytes, epoch: Epoch)
    requires n <= |log|
    ensures LastAt(log[n..], key, epoch) == if LastAt(log, key, epoch) >= n then LastAt(log, key, epoch) - n else -1
  {
    LastAtConcat(log[..n], log[n..], key, epoch);
    assert log[..n] + log[n..] == log;
  }

  /** A table holding exactly the entries of a log segment finds the segment's last write. */
  lemma TableGetIsLast(es: seq<Entry>, seg: seq<Entry>, key: Bytes, epoch: Epoch)
    requires Sorted(es) && Ascending(seg) && Distinct(seg) && forall x :: x in es <==> x in seg
    ensures TableGet(es, key, epoch) == if LastAt(seg, key, epoch) >= 0
                                        then Some(seg[LastAt(seg, key, epoch)]) else None
  {
    TableGetIsNewest(es, key, epoch);
    var i := LastAt(seg, key, epoch);
    var r := TableGet(es, key, epoch);
    if i >= 0 {
      assert seg[i] in es;
      var m :| 0 <= m < |seg| && seg[m] == r.value;
      assert m <= i;
    }
  }
}
