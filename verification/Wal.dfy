/**
 * The write-ahead log shared by any number of writers (rangeserver/src/wal/cassandra.rs): appends are
 * conditional batches on one metadata row, checked by reading the entry back.
 */
module WalProtocol {
  import opened Base

  type WriterId = nat
  type WriteId = nat

  datatype Entry = Entry(writer: WriterId, id: WriteId)

  /** A batch: insert the entry at `offset` and move the metadata past it, if `next` is still `offset`. */
  datatype Batch = Batch(entry: Entry, offset: nat, first: nat)

  /** The durable log: the metadata row and the entries by offset. */
  datatype Log = Log(first: Option<nat>, next: nat, entries: map<nat, Entry>)

  /** What a writer caches, and the append it is waiting for, if any. */
  datatype Writer =
    | NotSynced
    | Synced(first: Option<nat>, next: nat)
    | Appending(first: Option<nat>, next: nat, batch: Batch)

  /**
   * History per writer: where the log ended at its last sync, and whether it has lost track of the log
   * since, by an append that failed. `used` holds the write ids drawn so far and `oks` the appends reported as done.
   */
  datatype Past = Past(syncedAt: nat, lost: bool)

  datatype State = State(
    log: Log,
    writers: map<WriterId, Writer>,
    past: map<WriterId, Past>,
    inflight: set<Batch>,
    used: set<WriteId>,
    oks: set<(Entry, nat)>)

  datatype Action =
    | Sync(w: WriterId)
    | Submit(w: WriterId, id: WriteId)
    | ApplyBatch(b: Batch)
    | Fail(w: WriterId)
    | Check(w: WriterId)

  function WriterOf(s: State, w: WriterId): Writer {
    if w in s.writers then s.writers[w] else NotSynced
  }

  predicate Enabled(s: State, a: Action) {
    match a
    case Sync(w) => !WriterOf(s, w).Appending?
    case Submit(w, id) => WriterOf(s, w).Synced? && id !in s.used
    case ApplyBatch(b) => b in s.inflight
    case Fail(w) => WriterOf(s, w).Appending? && w in s.past
    case Check(w) => WriterOf(s, w).Appending? && WriterOf(s, w).batch !in s.inflight
  }

  /** The next offset and the first offset are advanced in memory before anything is sent. */
  function NewBatch(wr: Writer, w: WriterId, id: WriteId): Batch
    requires wr.Synced?
  {
    Batch(Entry(w, id), wr.next, if wr.first.Some? then wr.first.value else wr.next)
  }

  function Applied(log: Log, b: Batch): Log {
    if log.next == b.offset then Log(Some(b.first), b.offset + 1, log.entries[b.offset := b.entry]) else log
  }

  predicate Landed(log: Log, b: Batch) {
    b.offset in log.entries && log.entries[b.offset] == b.entry
  }

  /** The entries from `from` up to `to` all exist and are the writer's own. */
  predicate Own(log: Log, w: WriterId, from: nat, to: nat) {
    forall i: nat :: from <= i < to ==> i in log.entries && log.entries[i].writer == w
  }

  /**
   * A failure of the append in progress makes the writer lose track: its cached offset is where the log
   * ends or beyond, although not everything up to there since its sync is its own.
   */
  predicate Loses(s: State, w: WriterId)
    requires WriterOf(s, w).Appending? && w in s.past
  {
    var o := s.writers[w].batch.offset;
    s.log.next <= o + 1 && !Own(s.log, w, s.past[w].syncedAt, o + 1)
  }

  function Apply(s: State, a: Action): State
    requires Enabled(s, a)
  {
    match a
    case Sync(w) =>
      s.(writers := s.writers[w := Synced(s.log.first, s.log.next)], past := s.past[w := Past(s.log.next, false)])
    case Submit(w, id) =>
      var b := NewBatch(s.writers[w], w, id);
      s.(writers := s.writers[w := Appending(Some(b.first), b.offset + 1, b)],
         inflight := s.inflight + {b}, used := s.used + {id})
    case ApplyBatch(b) => s.(log := Applied(s.log, b), inflight := s.inflight - {b})
    case Fail(w) =>
      // A timeout: the writer keeps its advanced offsets, and the batch may still be applied later.
      var wr := s.writers[w];
      var lost := s.past[w].lost || Loses(s, w);
      s.(writers := s.writers[w := Synced(wr.first, wr.next)], past := s.past[w := s.past[w].(lost := lost)])
    case Check(w) =>
      var wr := s.writers[w];
      if Landed(s.log, wr.batch)
      then s.(writers := s.writers[w := Synced(wr.first, wr.next)], oks := s.oks + {(wr.batch.entry, wr.batch.offset)})
      else s.(writers := s.writers[w := NotSynced])
  }

  // ---------------------------------------------------------------- the invariant

  /** Offsets are dense from 0, and the metadata row says so. */
  ghost predicate Dense(log: Log) {
    && (forall i: nat :: i in log.entries <==> i < log.next)
    && log.first == if log.next == 0 then None else Some(0)
  }

  /** Somebody else's entry is where the batch was to go. */
  predicate Doomed(log: Log, b: Batch) {
    b.offset in log.entries && log.entries[b.offset] != b.entry
  }

  /**
   * A writer that has not lost track knows the log up to its cached offset, or cannot succeed before it syncs
   * again.
   */
  ghost predicate WriterOk(s: State, w: WriterId, wr: Writer) {
    && (wr.Synced? ==> w in s.past && (wr.first.None? ==> wr.next == 0) && (wr.first.Some? ==> wr.first.value == 0))
    && (wr.Appending? ==>
          && w in s.past && wr.first == Some(0) && wr.next == wr.batch.offset + 1
          && wr.batch.entry.writer == w && wr.batch.entry.id in s.used)
    && (wr.Synced? && !s.past[w].lost ==>
          && s.past[w].syncedAt <= wr.next
          && (Own(s.log, w, s.past[w].syncedAt, wr.next) || wr.next < s.log.next))
    && (wr.Appending? && !s.past[w].lost ==>
          && s.past[w].syncedAt <= wr.batch.offset
          && (Own(s.log, w, s.past[w].syncedAt, wr.batch.offset) || Doomed(s.log, wr.batch)))
  }

  /** Every write id is in one place: one entry of the log, or one batch on its way. */
  ghost predicate OnePlace(log: Log, inflight: set<Batch>) {
    && (forall i, j :: i in log.entries && j in log.entries && log.entries[i].id == log.entries[j].id ==> i == j)
    && (forall b, c :: b in inflight && c in inflight && b.entry.id == c.entry.id ==> b == c)
    && (forall b, i :: b in inflight && i in log.entries ==> b.entry.id != log.entries[i].id)
  }

  ghost predicate Inv(s: State) {
    && Dense(s.log) && OnePlace(s.log, s.inflight)
    && (forall b :: b in s.inflight ==> b.first == 0 && b.entry.id in s.used)
    && (forall i :: i in s.log.entries ==> s.log.entries[i].id in s.used)
    && (forall x :: x in s.oks ==> x.1 in s.log.entries && s.log.entries[x.1] == x.0)
    && (forall w :: w in s.past ==> s.past[w].syncedAt <= s.log.next)
    && (forall w :: w in s.writers ==> WriterOk(s, w, s.writers[w]))
  }

  lemma LogStep(s: State, a: Action)
    requires Inv(s) && Enabled(s, a)
    ensures var s' := Apply(s, a);
            && Dense(s'.log)
            && (forall b :: b in s'.inflight ==> b.first == 0 && b.entry.id in s'.used)
            && (forall i :: i in s'.log.entries ==> s'.log.entries[i].id in s'.used)
            && (forall x :: x in s'.oks ==> x.1 in s'.log.entries && s'.log.entries[x.1] == x.0)
            && (forall w :: w in s'.past ==> s'.past[w].syncedAt <= s'.log.next)
  {
    if a.Submit? { assert WriterOk(s, a.w, s.writers[a.w]); }
  }

  lemma PlaceStep(s: State, a: Action)
    requires Inv(s) && Enabled(s, a)
    ensures OnePlace(Apply(s, a).log, Apply(s, a).inflight)
  {
    hide Dense, WriterOk;
  }

  /** Entries, once written, stay: a batch only ever writes at the end. */
  lemma EntriesStay(s: State, a: Action)
    requires Inv(s) && Enabled(s, a)
    ensures forall i :: i in s.log.entries ==>
              i in Apply(s, a).log.entries && Apply(s, a).log.entries[i] == s.log.entries[i]
  {
  }

  lemma WriterStep(s: State, a: Action, w: WriterId)
    requires Inv(s) && Enabled(s, a) && w in Apply(s, a).writers
    ensures WriterOk(Apply(s, a), w, Apply(s, a).writers[w])
  {
    EntriesStay(s, a);
    if w in s.writers && Apply(s, a).writers[w] == s.writers[w] && (w in s.past ==> Apply(s, a).past[w] == s.past[w]) {
      StillOk(s, a, w);
    } else {
      assert w in s.writers ==> WriterOk(s, w, s.writers[w]);
    }
  }

  /** What a writer knows stays true whatever others do. */
  lemma StillOk(s: State, a: Action, w: WriterId)
    requires Inv(s) && Enabled(s, a) && w in s.writers
    requires var s' := Apply(s, a);
             w in s'.writers && s'.writers[w] == s.writers[w]
             && (w in s.past ==> w in s'.past && s'.past[w] == s.past[w])
    ensures WriterOk(Apply(s, a), w, s.writers[w])
  {
    EntriesStay(s, a);
    assert WriterOk(s, w, s.writers[w]);
    assert s.log.next <= Apply(s, a).log.next && s.used <= Apply(s, a).used;
    hide Applied, OnePlace, Loses;
  }

  lemma StepInv(s: State, a: Action)
    requires Inv(s) && Enabled(s, a)
    ensures Inv(Apply(s, a))
  {
    hide Dense, WriterOk, OnePlace;
    LogStep(s, a);
    PlaceStep(s, a);
    forall w | w in Apply(s, a).writers ensures WriterOk(Apply(s, a), w, Apply(s, a).writers[w]) {
      WriterStep(s, a, w);
    }
  }

  // ---------------------------------------------------------------- whole runs

  predicate Initial(s: State) {
    s.log == Log(None, 0, map[]) && s.writers == map[] && s.past == map[] && s.inflight == {} && s.used == {}
    && s.oks == {}
  }

  predicate IsRun(s: State, acts: seq<Action>)
    decreases |acts|
  {
    acts == [] || (Enabled(s, acts[0]) && IsRun(Apply(s, acts[0]), acts[1..]))
  }

  function After(s: State, acts: seq<Action>): State
    requires IsRun(s, acts)
    decreases |acts|
  {
    if acts == [] then s else After(Apply(s, acts[0]), acts[1..])
  }

  lemma {:induction false} RunInv(s: State, acts: seq<Action>)
    requires Inv(s) && IsRun(s, acts)
    ensures Inv(After(s, acts))
    ensures forall i :: i in s.log.entries ==>
              i in After(s, acts).log.entries && After(s, acts).log.entries[i] == s.log.entries[i]
    ensures s.oks <= After(s, acts).oks
    decreases |acts|
  {
    hide Inv;
    if acts != [] {
      StepInv(s, acts[0]);
      EntriesStay(s, acts[0]);
      RunInv(Apply(s, acts[0]), acts[1..]);
    }
  }

  /** Offsets stay dense, and every append reported as done owns one offset for the rest of the run, alone. */
  lemma AppendsOwnOffsets(s: State, acts: seq<Action>, more: seq<Action>, x: (Entry, nat), y: (Entry, nat))
    requires Initial(s) && IsRun(s, acts) && IsRun(After(s, acts), more)
    requires x in After(s, acts).oks && y in After(After(s, acts), more).oks
    ensures var s' := After(After(s, acts), more);
            && Dense(s'.log)
            && x.1 in s'.log.entries && s'.log.entries[x.1] == x.0
            && (x.1 == y.1 <==> x.0 == y.0)
  {
    RunInv(s, acts);
    RunInv(After(s, acts), more);
  }

  /**
   * A writer that has not lost track since its last sync succeeds only if nobody else appended since:
   * every entry from where the log ended at the sync up to the new one is its own.
   */
  lemma SuccessMeansNoForeignEntry(s: State, acts: seq<Action>, w: WriterId)
    requires Initial(s) && IsRun(s, acts)
    requires var s' := After(s, acts);
             Enabled(s', Check(w)) && Landed(s'.log, s'.writers[w].batch) && w in s'.past && !s'.past[w].lost
    ensures var s' := After(s, acts);
            Own(s'.log, w, s'.past[w].syncedAt, s'.writers[w].batch.offset + 1)
  {
    RunInv(s, acts);
    var s' := After(s, acts);
    assert WriterOk(s', w, s'.writers[w]);
  }

  // ---------------------------------------------------------------- the condition is exact

  /** The writer is about to report success although somebody else appended since its sync. */
  ghost predicate Deceived(s: State, w: WriterId) {
    && Enabled(s, Check(w)) && Landed(s.log, s.writers[w].batch) && w in s.past
    && !Own(s.log, w, s.past[w].syncedAt, s.writers[w].batch.offset + 1)
  }

  /** The writer does not lose track (again) in the run. */
  ghost predicate NoLoss(s: State, acts: seq<Action>, w: WriterId)
    requires IsRun(s, acts)
    decreases |acts|
  {
    acts == [] || ((acts[0] == Fail(w) ==> !Loses(s, w)) && NoLoss(Apply(s, acts[0]), acts[1..], w))
  }

  lemma {:induction false} KeepsTrack(s: State, acts: seq<Action>, w: WriterId)
    requires Inv(s) && IsRun(s, acts) && NoLoss(s, acts, w) && (w in s.past ==> !s.past[w].lost)
    ensures Inv(After(s, acts)) && !Deceived(After(s, acts), w)
    decreases |acts|
  {
    if acts != [] {
      StepInv(s, acts[0]);
      hide Inv;
      KeepsTrack(Apply(s, acts[0]), acts[1..], w);
    } else if w in s.writers {
      assert WriterOk(s, w, s.writers[w]);
    }
  }

  ghost predicate Leads(s: State, acts: seq<Action>, w: WriterId, s': State) {
    IsRun(s, acts) && NoLoss(s, acts, w) && After(s, acts) == s'
  }

  lemma {:induction false} Then(s: State, acts: seq<Action>, w: WriterId, s1: State, a: Action)
    requires Leads(s, acts, w, s1) && Enabled(s1, a) && !a.Fail?
    ensures Leads(s, acts + [a], w, Apply(s1, a))
    decreases |acts|
  {
    hide Enabled, Apply, Loses;
    var all := acts + [a];
    if acts == [] {
      assert all[0] == a && all[1..] == [];
      var s' := Apply(s, a);
      assert IsRun(s', []) && After(s', []) == s' && NoLoss(s', [], w);
    } else {
      Then(Apply(s, acts[0]), acts[1..], w, s1, a);
      assert all[0] == acts[0] && all[1..] == acts[1..] + [a];
    }
  }

  lemma {:induction false} Above(ids: set<nat>) returns (b: nat)
    ensures forall i :: i in ids ==> i < b
    decreases ids
  {
    b := 0;
    if i :| i in ids {
      var c := Above(ids - {i});
      b := if c <= i then i + 1 else c;
      assert forall j :: j in ids ==> j == i || j in ids - {i};
    }
  }

  /** A writer whose cached offset is where the log ends appends undisturbed, up to its check. */
  lemma Appends(s0: State, before: seq<Action>, w: WriterId, s: State, z: WriterId)
    returns (acts: seq<Action>, s': State)
    requires Leads(s0, before, w, s) && WriterOf(s, z).Synced? && s.writers[z].next == s.log.next
    requires forall b :: b in s.inflight ==> b.entry.id in s.used
    ensures Leads(s0, acts, w, s') && WriterOf(s', z).Appending? && s'.past == s.past
    ensures s'.log.next == s.log.next + 1 && forall u :: u != z ==> WriterOf(s', u) == WriterOf(s, u)
    ensures s.log.next in s'.log.entries && s'.log.entries[s.log.next].writer == z
    ensures s'.log.entries == s.log.entries[s.log.next := s'.log.entries[s.log.next]] && s'.inflight == s.inflight
    ensures s'.writers[z].batch.offset == s.log.next && Landed(s'.log, s'.writers[z].batch)
    ensures s'.writers[z].batch !in s'.inflight && s.used <= s'.used
  {
    hide Leads;
    var id := Above(s.used);
    Then(s0, before, w, s, Submit(z, id));
    var s1 := Apply(s, Submit(z, id));
    var b := s1.writers[z].batch;
    assert b !in s.inflight;
    Then(s0, before + [Submit(z, id)], w, s1, ApplyBatch(b));
    acts, s' := before + [Submit(z, id)] + [ApplyBatch(b)], Apply(s1, ApplyBatch(b));
  }

  /** What is known of a writer that is about to lose track: the log ends at its batch or right after it. */
  lemma LosesWhere(s: State, w: WriterId)
    requires Inv(s) && Enabled(s, Fail(w)) && !s.past[w].lost && Loses(s, w)
    ensures var o := s.writers[w].batch.offset;
            s.past[w].syncedAt <= o && o <= s.log.next <= o + 1
            && (forall b :: b in s.inflight ==> b.entry.id in s.used)
    ensures s.writers[w].next == s.writers[w].batch.offset + 1
  {
    assert WriterOk(s, w, s.writers[w]);
    var o := s.writers[w].batch.offset;
    assert Dense(s.log);
    if s.past[w].syncedAt < o && Own(s.log, w, s.past[w].syncedAt, o) { assert o - 1 in s.log.entries; }
  }

  /** A writer that loses track can come to be deceived. */
  lemma LossDeceives(s: State, w: WriterId) returns (acts: seq<Action>, s': State)
    requires Inv(s) && Enabled(s, Fail(w)) && !s.past[w].lost && Loses(s, w)
    ensures Leads(Apply(s, Fail(w)), acts, w, s') && Deceived(s', w)
  {
    LosesWhere(s, w);
    hide Inv;
    var o, s1 := s.writers[w].batch.offset, Apply(s, Fail(w));
    assert Leads(s1, [], w, s1);
    hide Leads;
    acts, s' := [], s1;
    if s.log.next == o {
      var z := Above(s1.writers.Keys);
      Then(s1, [], w, s1, Sync(z));
      acts, s' := Appends(s1, [] + [Sync(z)], w, Apply(s1, Sync(z)), z);
    }
    assert s'.log.next == o + 1 && WriterOf(s', w) == Synced(s.writers[w].first, o + 1) && s'.past[w] == s1.past[w];
    assert !Own(s'.log, w, s.past[w].syncedAt, o + 1);
    hide Loses;
    var i: nat :| s.past[w].syncedAt <= i < o + 1 && !(i in s'.log.entries && s'.log.entries[i].writer == w);
    acts, s' := Appends(s1, acts, w, s', w);
    assert !(i in s'.log.entries && s'.log.entries[i].writer == w);
  }

  /**
   * A failed append of a writer that has kept track so far lets it come to be deceived, in some run in
   * which it does not lose track again, if and only if it makes the writer lose track.
   */
  lemma FailureDeceivesIff(s: State, w: WriterId)
    requires Inv(s) && Enabled(s, Fail(w)) && !s.past[w].lost
    ensures Loses(s, w) <==> exists acts, s' :: Leads(Apply(s, Fail(w)), acts, w, s') && Deceived(s', w)
  {
    var s1 := Apply(s, Fail(w));
    if Loses(s, w) {
      var acts, s' := LossDeceives(s, w);
    } else {
      StepInv(s, Fail(w));
      forall acts, s' | Leads(s1, acts, w, s') ensures !Deceived(s', w) { KeepsTrack(s1, acts, w); }
    }
  }

  // ---------------------------------------------------------------- after a failed append

  const EMPTY_LOG: State := State(Log(None, 0, map[]), map[], map[], {}, {}, {})

  const FIRST_APPEND: seq<Action> := [Sync(1), Submit(1, 10)]

  /** A run to a first append; if it times out, the writer can later succeed over another writer's entry. */
  lemma FailedAppendHidesForeignEntry() returns (s: State, more: seq<Action>, s': State)
    ensures Initial(EMPTY_LOG) && IsRun(EMPTY_LOG, FIRST_APPEND) && After(EMPTY_LOG, FIRST_APPEND) == s
    ensures Enabled(s, Fail(1)) && Loses(s, 1) && Leads(Apply(s, Fail(1)), more, 1, s') && Deceived(s', 1)
  {
    var s1 := Apply(EMPTY_LOG, FIRST_APPEND[0]);
    s := Apply(s1, FIRST_APPEND[1]);
    assert FIRST_APPEND[1..] == [Submit(1, 10)] && [Submit(1, 10)][1..] == [];
    assert IsRun(s, []) && IsRun(s1, [Submit(1, 10)]) && After(s1, [Submit(1, 10)]) == s;
    assert IsRun(EMPTY_LOG, FIRST_APPEND) && After(EMPTY_LOG, FIRST_APPEND) == s;
    RunInv(EMPTY_LOG, FIRST_APPEND);
    var i: nat := 0;
    assert i !in s.log.entries && !Own(s.log, 1, 0, 1);
    hide Inv, Leads, Deceived;
    more, s' := LossDeceives(s, 1);
  }
}

/** One writer's log object over the shared log. */
module Wals {
  import opened Base
  import WalProtocol

  datatype Error = NotSynced | Timeout

  datatype Result = Ok | Err(error: Error)

  class SharedLog {
    var log: WalProtocol.Log

    constructor ()
      ensures log == WalProtocol.Log(None, 0, map[])
    {
      log := WalProtocol.Log(None, 0, map[]);
    }

    /** The batch takes effect as a whole, if the next offset is still the expected one. */
    method ConditionalAppend(entry: WalProtocol.Entry, offset: nat, first: nat)
      modifies this
      ensures log == WalProtocol.Applied(old(log), WalProtocol.Batch(entry, offset, first))
      ensures old(log).next == offset ==>
                log.first == Some(first) && log.next == offset + 1 && log.entries == old(log).entries[offset := entry]
      ensures old(log).next != offset ==> log == old(log)
    {
      if log.next == offset {
        log := WalProtocol.Log(Some(first), offset + 1, log.entries[offset := entry]);
      }
    }
  }

  class CassandraWal {
    const id: WalProtocol.WriterId
    var state: WalProtocol.Writer

    constructor (w: WalProtocol.WriterId)
      ensures id == w && state == WalProtocol.NotSynced
    {
      id := w;
      state := WalProtocol.NotSynced;
    }

    method Sync(shared: SharedLog)
      modifies this
      ensures state == WalProtocol.Synced(shared.log.first, shared.log.next)
    {
      state := WalProtocol.Synced(shared.log.first, shared.log.next);
    }

    /**
     * `delivered` says whether the batch reaches the log and `answered` whether the calls return
     * without an error. Success means that the entry is in the log at the offset the writer expected.
     */
    method AppendEntry(shared: SharedLog, writeId: WalProtocol.WriteId, delivered: bool, answered: bool)
      returns (res: Result)
      requires !state.Appending?
      modifies this, shared
      ensures old(state) == WalProtocol.NotSynced ==> res == Err(NotSynced) && unchanged(this) && unchanged(shared)
      ensures old(state).Synced? ==>
                var b := WalProtocol.NewBatch(old(state), id, writeId);
                && shared.log == (if delivered then WalProtocol.Applied(old(shared.log), b) else old(shared.log))
                && b.entry == WalProtocol.Entry(id, writeId) && b.offset == old(state).next
                && b.first == (if old(state).first.Some? then old(state).first.value else b.offset)
                && (res == Err(Timeout) <==> !answered)
                && (res == Ok <==> answered && WalProtocol.Landed(shared.log, b))
                && (res == Ok ==> b.offset in shared.log.entries && shared.log.entries[b.offset] == b.entry)
                && (delivered && answered && old(shared.log).next == b.offset ==> res == Ok)
                && state == (if res == Err(NotSynced) then WalProtocol.NotSynced
                             else WalProtocol.Synced(Some(b.first), b.offset + 1))
    {
      if state.NotSynced? {
        return Err(NotSynced);
      }
      var offset := state.next;
      var first := if state.first.Some? then state.first.value else offset;
      state := WalProtocol.Synced(Some(first), offset + 1);
      var entry := WalProtocol.Entry(id, writeId);
      if delivered {
        shared.ConditionalAppend(entry, offset, first);
      }
      if !answered {
        return Err(Timeout);
      }
      if offset !in shared.log.entries || shared.log.entries[offset] != entry {
        state := WalProtocol.NotSynced;
        return Err(NotSynced);
      }
      res := Ok;
    }
  }
}
