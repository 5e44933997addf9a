/** The range manager object and its handlers (rangeserver/src/range_manager/impl.rs). */
module RangeManagers {
  import opened Base
  import opened Leasing
  import Locking
  import LockTables
  import Records
  import Overlays
  import Ranges
  import Prefetching
  import PrefetchingBuffers
  import PrefetchCoherence

  datatype LoadState = NotLoaded | Loading | Loaded | Unloaded

  datatype Error =
    | RangeIsNotLoaded
    | RangeOwnershipLost
    | KeyIsOutOfRange
    | WaitDie
    | TransactionLockLost
    | PrefetchError
    | StorageError
    | WalError
    | EpochSupplierError

  /** A handler finishes, fails, panics, or blocks until it is woken. */
  datatype Outcome<+T> = Done(value: T) | Failed(error: Error) | Panicked | Blocked

  /**
   * What the database does with a conditional write and the read that checks it; a failed write may have taken
   * effect.
   */
  datatype Answer = Answered | WriteFails(applied: bool) | CheckFails

  datatype GetResult = GetResult(val: Option<Bytes>, leaderSequenceNumber: nat)

  ghost predicate KeysIncluded(kr: KeyRange, rec: Overlays.Record) {
    && (forall i :: 0 <= i < |rec.puts| ==> Includes(kr, rec.puts[i].0))
    && (forall i :: 0 <= i < |rec.deletes| ==> Includes(kr, rec.deletes[i]))
  }

  /** The durable lease row of a range, as the storage layer updates it (rangeserver/src/storage/cassandra.rs). */
  class LeaseRow {
    var leaderSequenceNumber: nat
    var epochLease: Lease

    constructor (lease: Lease)
      ensures leaderSequenceNumber == 0 && epochLease == lease
    {
      leaderSequenceNumber := 0;
      epochLease := lease;
    }

    /**
     * Reading the number, writing its successor and reading the row again, without interference. `read` says
     * whether the first read succeeds. The number may have moved although the caller learns of an error.
     */
    method TakeOwnership(read: bool, answer: Answer) returns (res: Outcome<(nat, Lease)>)
      modifies this
      ensures res == if read && answer.Answered? then Done((leaderSequenceNumber, epochLease)) else Failed(StorageError)
      ensures leaderSequenceNumber == old(leaderSequenceNumber) + if read && answer != WriteFails(false) then 1 else 0
      ensures epochLease == old(epochLease)
    {
      if !read { return Failed(StorageError); }
      var next: nat := leaderSequenceNumber + 1;
      if answer != WriteFails(false) { leaderSequenceNumber := next; }
      if !answer.Answered? { return Failed(StorageError); }
      res := Done((next, epochLease));
    }

    /** A conditional update followed by a read of the row: only the present leader can move the lease. */
    method RenewEpochLease(lease: Lease, leader: nat, answer: Answer) returns (res: Outcome<()>)
      modifies this
      ensures res == if !answer.Answered? then Failed(StorageError)
                     else if leader != leaderSequenceNumber then Failed(RangeOwnershipLost) else Done(())
      ensures leaderSequenceNumber == old(leaderSequenceNumber)
      ensures epochLease == if leader == leaderSequenceNumber && answer != WriteFails(false)
                            then lease else old(epochLease)
    {
      if leaderSequenceNumber == leader && answer != WriteFails(false) {
        epochLease := lease;
      }
      if !answer.Answered? { return Failed(StorageError); }
      if leaderSequenceNumber != leader { return Failed(RangeOwnershipLost); }
      res := Done(());
    }
  }

  /** The stored rows of a range. */
  class RangeStorage {
    var table: Records.Table

    constructor (stored: Records.Table)
      ensures table == stored
    {
      table := stored;
    }

    /** The newest row of the key decides. */
    method Get(key: Bytes) returns (val: Option<Bytes>)
      ensures val == Records.Get(table, key)
    {
      var rows := Records.RowsOf(table, key);
      val := None;
      if |rows| > 0 && !rows[0].cell.Tombstone? {
        val := Some(rows[0].cell.value);
      }
    }

    method Put(key: Bytes, epoch: Epoch, cell: Records.Cell)
      modifies this
      ensures table == Records.Write(old(table), key, epoch, cell)
    {
      table := Records.Write(table, key, epoch, cell);
    }
  }

  /** A failed load is reported to those waiting for it; if there are none, that panics. */
  function Report(error: Error, heard: bool): (res: Outcome<()>)
    ensures res.Panicked? <==> !heard
    ensures res.Failed? ==> res.error == error
    ensures !res.Done? && !res.Blocked?
  {
    if heard then Failed(error) else Panicked
  }

  function Value(c: Records.Cell): Option<Bytes> {
    if c.Tombstone? then None else Some(c.value)
  }

  /** The buffer after the given writes, one by one. */
  function Updates(b: Prefetching.Buffer, ws: seq<Records.Put>): Prefetching.Buffer
    decreases |ws|
  {
    if ws == [] then b
    else Prefetching.Update(Updates(b, ws[..|ws| - 1]), ws[|ws| - 1].key, Value(ws[|ws| - 1].cell))
  }

  lemma UpdatesSplit(b: Prefetching.Buffer, ws: seq<Records.Put>, i: nat)
    requires i < |ws|
    ensures Updates(b, ws[..i + 1]) == Prefetching.Update(Updates(b, ws[..i]), ws[i].key, Value(ws[i].cell))
  {
    assert ws[..i + 1][..i] == ws[..i];
  }

  /** How many of n writes take effect if storage fails at a given one. */
  function Stop(failAt: Option<nat>, n: nat): (k: nat)
    ensures k <= n && (k < n <==> failAt.Some? && failAt.value < n) && (k < n ==> failAt == Some(k))
  {
    if failAt.Some? && failAt.value < n then failAt.value else n
  }

  lemma WriteAllSplit(t: Records.Table, ws: seq<Records.Put>, i: nat)
    requires i < |ws|
    ensures Records.WriteAll(t, ws[..i + 1]) ==
              Records.Write(Records.WriteAll(t, ws[..i]), ws[i].key, ws[i].epoch, ws[i].cell)
    decreases |ws|
  {
    if i > 0 {
      var t1 := Records.Write(t, ws[0].key, ws[0].epoch, ws[0].cell);
      WriteAllSplit(t1, ws[1..], i - 1);
      assert ws[1..][..i] == ws[..i + 1][1..] && ws[1..][..i - 1] == ws[..i][1..];
    } else {
      assert ws[..1] == [ws[0]] && ws[..1][1..] == [] && ws[..0] == [];
    }
  }

  ghost predicate Agree(b: Prefetching.Buffer, t: Records.Table, e: Epoch, k: Bytes) {
    Records.WellFormed(t) && Overlays.UpTo(t, e) && k in b.states && Prefetching.Find(b.store, k) == Records.Get(t, k)
  }

  lemma WriteReads(t: Records.Table, w: Records.Put, k: Bytes)
    requires Records.WellFormed(t) && Overlays.UpTo(t, w.epoch)
    ensures var t' := Records.Write(t, w.key, w.epoch, w.cell);
            && Records.WellFormed(t') && Overlays.UpTo(t', w.epoch)
            && Records.Get(t', k) == if k == w.key then Value(w.cell) else Records.Get(t, k)
  {
    var t' := Records.Write(t, w.key, w.epoch, w.cell);
    Records.WriteLookup(t, w.key, w.epoch, w.cell, w.key, w.epoch);
    forall j, e' | e' > w.epoch ensures Records.Lookup(Records.RowsOf(t', j), e') == None {
      Records.WriteLookup(t, w.key, w.epoch, w.cell, j, e');
    }
    if k == w.key { Records.GetIsHighestEpoch(t', k, w.epoch, w.cell); }
  }

  lemma UpdateAgrees(b: Prefetching.Buffer, t: Records.Table, w: Records.Put, k: Bytes)
    requires Agree(b, t, w.epoch, k)
    ensures Agree(Prefetching.Update(b, w.key, Value(w.cell)), Records.Write(t, w.key, w.epoch, w.cell), w.epoch, k)
  {
    WriteReads(t, w, k);
    hide Records.Write, Records.Get, Records.WellFormed, Overlays.UpTo;
  }

  /**
   * The writes of a commit at an epoch not below any stored one, up to wherever storage fails, keep the
   * buffer and the storage in agreement on every key that somebody asked for.
   */
  lemma {:induction false} CommitKeepsAgreement(b: Prefetching.Buffer, t: Records.Table, ws: seq<Records.Put>,
      e: Epoch, k: Bytes)
    requires Agree(b, t, e, k) && forall i :: 0 <= i < |ws| ==> ws[i].epoch == e
    ensures Agree(Updates(b, ws), Records.WriteAll(t, ws), e, k)
    decreases |ws|
  {
    if ws != [] {
      var n := |ws| - 1;
      CommitKeepsAgreement(b, t, ws[..n], e, k);
      WriteAllSplit(t, ws, n);
      assert ws[..n + 1] == ws;
      hide Agree, Records.Write, Records.WriteAll, Prefetching.Update;
      UpdateAgrees(Updates(b, ws[..n]), Records.WriteAll(t, ws[..n]), ws[n], k);
    }
  }

  class RangeManager {
    const keyRange: KeyRange
    const storage: RangeStorage
    const buffer: PrefetchingBuffers.PrefetchingBuffer
    var state: LoadState
    var lockTable: LockTables.LockTable
    var highestKnownEpoch: Epoch
    var epochLease: Lease
    var leaderSequenceNumber: nat
    var pendingPrepareRecords: map<TxId, Overlays.Record>

    ghost function View(): Ranges.Memory
      reads this, lockTable
    {
      Ranges.Memory(lockTable.View(), highestKnownEpoch, epochLease, pendingPrepareRecords)
    }

    /** The storage and the buffer are given: the buffer is shared by all ranges of the server. */
    constructor (kr: KeyRange, storage: RangeStorage, buffer: PrefetchingBuffers.PrefetchingBuffer)
      ensures state.NotLoaded? && keyRange == kr && this.storage == storage && this.buffer == buffer && fresh(lockTable)
    {
      state := NotLoaded;
      keyRange := kr;
      this.storage := storage;
      this.buffer := buffer;
      lockTable := new LockTables.LockTable();
      highestKnownEpoch := 0;
      epochLease := Lease(0, 0);
      leaderSequenceNumber := 0;
      pendingPrepareRecords := map[];
    }

    /**
     * The first half of loading reads the epoch, takes ownership of the lease row and remembers the lease
     * found there; `heard` says whether another load waits for this one. A range that was unloaded, or whose
     * load failed, cannot be loaded again.
     */
    method BeginLoad(row: LeaseRow, epochRead: bool, read: bool, answer: Answer, heard: bool) returns (res: Outcome<()>)
      modifies this, row
      ensures old(state) == Loaded ==> res == Done(()) && unchanged(this) && unchanged(row)
      ensures old(state) == Unloaded ==> res == Failed(RangeIsNotLoaded) && unchanged(this) && unchanged(row)
      ensures old(state) == Loading ==> res == Blocked && unchanged(this) && unchanged(row)
      ensures old(state) == NotLoaded && !epochRead ==>
                res == Report(EpochSupplierError, heard) && state == Unloaded && unchanged(row)
      ensures old(state) == NotLoaded && epochRead && !(read && answer.Answered?) ==>
                && res == Report(StorageError, heard) && state == Unloaded && row.epochLease == old(row.epochLease)
                && row.leaderSequenceNumber ==
                     old(row.leaderSequenceNumber) + if read && answer != WriteFails(false) then 1 else 0
      ensures old(state) == NotLoaded && epochRead && read && answer.Answered? ==>
                && res == Blocked && state == Loading
                && leaderSequenceNumber == row.leaderSequenceNumber == old(row.leaderSequenceNumber) + 1
                && epochLease == row.epochLease == old(row.epochLease)
    {
      match state {
        case Loaded => return Done(());
        case Loading => return Blocked;
        case Unloaded => return Failed(RangeIsNotLoaded);
        case NotLoaded =>
      }
      if !epochRead {
        state := Unloaded;
        return Report(EpochSupplierError, heard);
      }
      state := Loading;
      var taken := row.TakeOwnership(read, answer);
      if !taken.Done? {
        state := Unloaded;
        return Report(StorageError, heard);
      }
      leaderSequenceNumber, epochLease := taken.value.0, taken.value.1;
      res := Blocked;
    }

    /**
     * The second half waits for the epoch to advance past `epoch`, moves the lease in the row and syncs the
     * log. It succeeds exactly if the wait, the database and the sync do and the row still has this leader;
     * then it has a lease past the previous one, empty locks and no prepare records, even if the range was
     * unloaded meanwhile. Any failure leaves the range unloaded; one of the sync comes after the row was written.
     */
    method FinishLoad(row: LeaseRow, epoch: Epoch, n: nat, waited: bool, answer: Answer, synced: bool, heard: bool)
      returns (res: Outcome<()>)
      requires state == Loading || state == Unloaded
      modifies this, row
      ensures res == if !waited then Report(EpochSupplierError, heard)
                     else if !answer.Answered? then Report(StorageError, heard)
                     else if row.leaderSequenceNumber != leaderSequenceNumber then Report(RangeOwnershipLost, heard)
                     else if !synced then Report(WalError, heard)
                     else Done(())
      ensures row.leaderSequenceNumber == old(row.leaderSequenceNumber)
      ensures leaderSequenceNumber == old(leaderSequenceNumber)
      ensures row.epochLease == if waited && row.leaderSequenceNumber == leaderSequenceNumber
                                   && answer != WriteFails(false)
                                then LoadLease(old(epochLease), epoch, n) else old(row.epochLease)
      ensures !res.Done? ==> state == Unloaded
      ensures res.Panicked? ==> !heard
      ensures res.Done? ==>
                && highestKnownEpoch == epoch + 1 && epochLease == row.epochLease && pendingPrepareRecords == map[]
                && lockTable.currentHolder == None && lockTable.waitingToAcquire == []
      ensures res.Done? ==> state == Loaded && fresh(lockTable) && View() == Ranges.Load(old(epochLease), epoch, n)
    {
      if !waited {
        state := Unloaded;
        return Report(EpochSupplierError, heard);
      }
      var lower := if epoch + 1 > epochLease.hi + 1 then epoch + 1 else epochLease.hi + 1;
      var moved := row.RenewEpochLease(Lease(lower, lower + n), leaderSequenceNumber, answer);
      if !moved.Done? || !synced {
        state := Unloaded;
        return Report(if moved.Failed? then moved.error else WalError, heard);
      }
      epochLease := Lease(lower, lower + n);
      highestKnownEpoch := epoch + 1;
      lockTable := new LockTables.LockTable();
      pendingPrepareRecords := map[];
      state := Loaded;
      res := Done(());
    }

    method Unload()
      modifies this`state
      ensures state == Unloaded
    {
      state := Unloaded;
    }

    /**
     * One round of the renewal task: nothing if not loaded or not due, nothing in memory if ownership was
     * lost or the database fails, though the row may then hold the new lease already.
     */
    method RenewEpochLease(row: LeaseRow, epoch: Epoch, n: nat, answer: Answer) returns (renewed: bool)
      modifies this`epochLease, this`highestKnownEpoch, row
      ensures var due := state == Loaded && DueForRenewal(old(epochLease), epoch, n)
                         && row.leaderSequenceNumber == leaderSequenceNumber;
              && (renewed <==> due && answer.Answered?)
              && row.epochLease == (if due && answer != WriteFails(false) then Ranges.Renew(old(View()), epoch, n).lease
                                    else old(row.epochLease))
      ensures row.leaderSequenceNumber == old(row.leaderSequenceNumber)
      ensures View() == if renewed then Ranges.Renew(old(View()), epoch, n) else old(View())
      ensures highestKnownEpoch == if renewed then Max(old(highestKnownEpoch), epoch + 1) else old(highestKnownEpoch)
    {
      if state != Loaded { return false; }
      var left := if epochLease.hi <= epoch then 0 else epochLease.hi - epoch;
      if left > 2 * n {
        return false;
      }
      var lower := if epoch + 1 > epochLease.hi + 1 then epoch + 1 else epochLease.hi + 1;
      var lease := Lease(lower, lower + n);
      if lower - epochLease.hi == 1 {
        lease := Lease(epochLease.lo, lower + n);
      }
      var moved := row.RenewEpochLease(lease, leaderSequenceNumber, answer);
      renewed := moved.Done?;
      if renewed {
        epochLease := lease;
        MaybeUpdateHighest(epoch + 1);
      }
    }

    method MaybeUpdateHighest(epoch: Epoch)
      modifies this`highestKnownEpoch
      ensures highestKnownEpoch == Max(old(highestKnownEpoch), epoch)
    {
      if highestKnownEpoch < epoch {
        highestKnownEpoch := epoch;
      }
    }

    /**
     * A prefetch, undisturbed: nothing checks that the range is loaded or has the key. A key that is
     * already fetched is left alone, and the call waits behind a fetch in progress.
     */
    method Prefetch(t: TxId, key: Bytes, answered: bool) returns (res: Outcome<()>)
      modifies buffer
      ensures var asked := Prefetching.Request(old(buffer.View()), t, key);
              match Prefetching.StateFor(old(buffer.View()), key)
              case Fetched => res == Done(()) && buffer.View() == asked
              case Loading(_) => res == Blocked && buffer.View() == asked
              case Requested(n) =>
                if answered
                then res == Done(())
                     && buffer.View() == Prefetching.FetchComplete(asked, key, Records.Get(storage.table, key), n)
                else res == Failed(PrefetchError) && buffer.View() == Prefetching.FetchFailed(asked, key, n)
    {
      var found := buffer.ProcessPrefetchRequest(t, key);
      match found {
        case Fetched => return Done(());
        case Loading(_) => return Blocked;
        case Requested(n) =>
          if !answered {
            buffer.FetchFailed(key, n);
            return Failed(PrefetchError);
          }
          var val := storage.Get(key);
          buffer.FetchComplete(key, val, n);
          return Done(());
      }
    }

    /** The buffer has fetched the key, so that a get does not go to storage. */
    predicate Fetched(key: Bytes)
      reads buffer
    {
      key in buffer.keyState && buffer.keyState[key].Fetched?
    }

    /** A fetched key has the value that storage has. */
    ghost predicate Agrees(key: Bytes)
      reads buffer, storage
    {
      Fetched(key) ==> Prefetching.Find(buffer.prefetchStore, key) == Records.Get(storage.table, key)
    }

    /**
     * Takes the range lock, then reads; `answered` says whether storage does. The lock decides between
     * dying, waiting (FinishGet goes on once the lock is granted) and reading.
     */
    method Get(t: TxId, key: Bytes, answered: bool) returns (res: Outcome<GetResult>)
      modifies lockTable
      ensures state != Loaded ==> res == Failed(RangeIsNotLoaded) && unchanged(lockTable)
      ensures state == Loaded && !Includes(keyRange, key) ==> res == Failed(KeyIsOutOfRange) && unchanged(lockTable)
      ensures state == Loaded && Includes(keyRange, key) ==>
                && View() == Ranges.Request(old(View()), t)
                && match Locking.AcquireOutcome(old(lockTable.View()), t)
                   case WaitDie => res == Failed(WaitDie)
                   case Waiting => res == Blocked
                   case Granted =>
                     && Ranges.Holds(View(), t)
                     && (res.Done? <==> if Fetched(key) then key in buffer.prefetchStore else answered)
                     && (!res.Done? ==> res == Failed(if Fetched(key) then PrefetchError else StorageError))
                     && (res.Done? && Fetched(key) ==> res.value.val == Some(buffer.prefetchStore[key]))
                     && (res.Done? && Agrees(key) ==>
                           res.value == GetResult(Records.Get(storage.table, key), leaderSequenceNumber))
                     && (answered && Agrees(key) ==>
                           (res.Done? <==> !(Fetched(key) && Records.Get(storage.table, key).None?)))
    {
      if state != Loaded { return Failed(RangeIsNotLoaded); }
      if !Includes(keyRange, key) { return Failed(KeyIsOutOfRange); }
      var outcome := lockTable.Acquire(t);
      match outcome {
        case WaitDie => return Failed(WaitDie);
        case Waiting => return Blocked;
        case Granted =>
      }
      res := FinishGet(t, key, answered);
    }

    /**
     * The value is the buffered one of a fetched key and the stored one otherwise, so that where the two
     * agree it is the stored one. It is what the interleaved model answers over the same buffer and storage.
     */
    method FinishGet(t: TxId, key: Bytes, answered: bool) returns (res: Outcome<GetResult>)
      requires Ranges.Holds(View(), t)
      ensures res.Done? <==> if Fetched(key) then key in buffer.prefetchStore else answered
      ensures !res.Done? ==> res == Failed(if Fetched(key) then PrefetchError else StorageError)
      ensures res.Done? ==>
                && res.value.leaderSequenceNumber == leaderSequenceNumber
                && res.value.val == if Fetched(key) then Some(buffer.prefetchStore[key])
                                    else Records.Get(storage.table, key)
      ensures answered ==>
                forall s: PrefetchCoherence.State, r ::
                  s.buf == buffer.View()
                  && PrefetchCoherence.FindAt(s.storage, r, key) == Records.Get(storage.table, key) ==>
                    match PrefetchCoherence.LockedGet(s, r, key)
                    case Value(v) => res == Done(GetResult(v, leaderSequenceNumber))
                    case PrefetchError => res == Failed(PrefetchError)
    {
      var found := buffer.GetFromBuffer(key);
      match found {
        case Hit(val) => res := Done(GetResult(Some(val), leaderSequenceNumber));
        case Broken => res := Failed(PrefetchError);
        case Miss =>
          if !answered { return Failed(StorageError); }
          var val := storage.Get(key);
          res := Done(GetResult(val, leaderSequenceNumber));
      }
    }

    /**
     * Checks that every key belongs to the range and that a lock taken by reads is still held, takes
     * the lock, logs and remembers the record, and reports the highest known epoch and the lease.
     */
    method Prepare(t: TxId, rec: Overlays.Record, hasReads: bool, logged: bool) returns (res: Outcome<Ranges.Vote>)
      modifies this`pendingPrepareRecords, lockTable
      ensures state != Loaded ==> res == Failed(RangeIsNotLoaded) && View() == old(View())
      ensures state == Loaded && !KeysIncluded(keyRange, rec) ==>
                res == Failed(KeyIsOutOfRange) && View() == old(View())
      ensures state == Loaded && KeysIncluded(keyRange, rec) && hasReads && !old(Ranges.Holds(View(), t)) ==>
                res == Failed(TransactionLockLost) && View() == old(View())
      ensures state == Loaded && KeysIncluded(keyRange, rec) && (hasReads ==> old(Ranges.Holds(View(), t))) ==>
                var asked := Ranges.Request(old(View()), t);
                match Locking.AcquireOutcome(old(lockTable.View()), t)
                case WaitDie => res == Failed(WaitDie) && View() == old(View())
                case Waiting => res == Blocked && View() == asked
                case Granted =>
                  && Ranges.Holds(View(), t)
                  && res == (if logged then Done(Ranges.VoteOf(old(View()))) else Failed(WalError))
                  && View() == if logged then Ranges.Prepare(asked, t, rec) else asked
    {
      if state != Loaded { return Failed(RangeIsNotLoaded); }
      for i := 0 to |rec.puts|
        invariant forall j :: 0 <= j < i ==> Includes(keyRange, rec.puts[j].0)
      {
        if !Includes(keyRange, rec.puts[i].0) { return Failed(KeyIsOutOfRange); }
      }
      for i := 0 to |rec.deletes|
        invariant forall j :: 0 <= j < i ==> Includes(keyRange, rec.deletes[j])
      {
        if !Includes(keyRange, rec.deletes[i]) { return Failed(KeyIsOutOfRange); }
      }
      var holding := lockTable.IsCurrentlyHolding(t);
      if hasReads && !holding { return Failed(TransactionLockLost); }
      var outcome := lockTable.Acquire(t);
      match outcome {
        case WaitDie => return Failed(WaitDie);
        case Waiting => return Blocked;
        case Granted =>
      }
      res := FinishPrepare(t, rec, logged);
    }

    method FinishPrepare(t: TxId, rec: Overlays.Record, logged: bool) returns (res: Outcome<Ranges.Vote>)
      requires Ranges.Holds(View(), t)
      modifies this`pendingPrepareRecords
      ensures res == if logged then Done(Ranges.VoteOf(old(View()))) else Failed(WalError)
      ensures res.Done? ==> res.value.highest == highestKnownEpoch && res.value.lease == epochLease
      ensures pendingPrepareRecords ==
                if res.Done? then old(pendingPrepareRecords)[t := rec] else old(pendingPrepareRecords)
      ensures View() == if logged then Ranges.Prepare(old(View()), t, rec) else old(View())
    {
      if !logged { return Failed(WalError); }
      pendingPrepareRecords := pendingPrepareRecords[t := rec];
      res := Done(Ranges.Vote(highestKnownEpoch, epochLease));
    }

    /**
     * An abort by the holder is logged, releases the lock and completes the transaction's prefetches; by anyone
     * else it succeeds without effect.
     */
    method Abort(t: TxId, logged: bool) returns (res: Outcome<()>)
      modifies lockTable, buffer
      ensures res == if state != Loaded then Failed(RangeIsNotLoaded)
                     else if old(Ranges.Holds(View(), t)) && !logged then Failed(WalError) else Done(())
      ensures View() == if res.Done? then Ranges.Abort(old(View()), t) else old(View())
      ensures old(lockTable.currentHolder) == Some(t) && res.Done? ==>
                lockTable.currentHolder ==
                  if old(lockTable.waitingToAcquire) == [] then None else Some(old(lockTable.waitingToAcquire)[0])
      ensures old(Locking.Ordered(lockTable.View()) && lockTable.currentHolder == Some(t)) && res.Done? ==>
                t !in Locking.Known(lockTable.View())
      ensures buffer.View() == if res.Done? && old(Ranges.Holds(View(), t))
                               then Prefetching.Complete(old(buffer.View()), t)
                               else old(buffer.View())
    {
      if state != Loaded { return Failed(RangeIsNotLoaded); }
      var holding := lockTable.IsCurrentlyHolding(t);
      if !holding { return Done(()); }
      if !logged { return Failed(WalError); }
      ghost var held := lockTable.View();
      if Locking.Ordered(held) { Locking.ReleaseHandsOver(held); }
      var _ := lockTable.Release();
      buffer.ProcessTransactionComplete(t);
      res := Done(());
    }

    /**
     * A commit by the holder raises the highest known epoch, logs, writes every put and then every delete
     * at the commit epoch, each to storage and then to the buffer, and only then releases; by anyone else
     * it succeeds without effect. `failAt` is the write at which storage fails, if any: the ones before it
     * stay, the record is gone and the lock is kept. A holder without a record, as after such a failure,
     * panics with the epoch raised and the commit logged.
     */
    method Commit(t: TxId, epoch: Epoch, logged: bool, failAt: Option<nat>) returns (res: Outcome<()>)
      modifies this`highestKnownEpoch, this`pendingPrepareRecords, lockTable, storage, buffer
      ensures state != Loaded || !old(Ranges.Holds(View(), t)) ==>
                && res == (if state != Loaded then Failed(RangeIsNotLoaded) else Done(()))
                && View() == old(View()) && unchanged(storage) && unchanged(buffer)
      ensures highestKnownEpoch == if state == Loaded && old(lockTable.currentHolder) == Some(t)
                                   then Max(old(highestKnownEpoch), epoch) else old(highestKnownEpoch)
      ensures old(lockTable.currentHolder) == Some(t) && res.Done? ==>
                && pendingPrepareRecords == old(pendingPrepareRecords) - {t}
                && lockTable.currentHolder ==
                     if old(lockTable.waitingToAcquire) == [] then None else Some(old(lockTable.waitingToAcquire)[0])
      ensures old(lockTable.currentHolder) == Some(t) && !res.Done? ==> lockTable.currentHolder == Some(t)
      ensures state == Loaded && old(Ranges.Holds(View(), t)) && !logged ==>
                && res == Failed(WalError)
                && View() == Ranges.CommitLogFailure(old(View()), t, epoch) && unchanged(storage) && unchanged(buffer)
      ensures state == Loaded && old(Ranges.Holds(View(), t)) && logged && t !in old(pendingPrepareRecords) ==>
                && res == Panicked
                && View() == old(View()).(highest := Max(old(highestKnownEpoch), epoch)) && unchanged(storage)
                && unchanged(buffer)
      ensures state == Loaded && old(Ranges.Holds(View(), t)) && logged && t in old(pendingPrepareRecords) ==>
                var ws := Overlays.RowsFor(old(Ranges.Pending(View(), t)), epoch);
                var k := Stop(failAt, |ws|);
                if k < |ws|
                then
                  && res == Failed(StorageError)
                  && View() == Ranges.Commit(old(View()), t, epoch).(lock := old(lockTable.View()))
                  && storage.table == Records.WriteAll(old(storage.table), ws[..k])
                  && buffer.View() == Updates(old(buffer.View()), ws[..k])
                else
                  && res == Done(()) && View() == Ranges.Commit(old(View()), t, epoch)
                  && storage.table == old(Ranges.Written(View(), storage.table, t, epoch))
                  && buffer.View() == Prefetching.Complete(Updates(old(buffer.View()), ws), t)
    {
      if state != Loaded { return Failed(RangeIsNotLoaded); }
      var holding := lockTable.IsCurrentlyHolding(t);
      if !holding { return Done(()); }
      MaybeUpdateHighest(epoch);
      if !logged { return Failed(WalError); }
      if t !in pendingPrepareRecords { return Panicked; }
      var rec := pendingPrepareRecords[t];
      pendingPrepareRecords := pendingPrepareRecords - {t};
      ghost var ws := Overlays.RowsFor(rec, epoch);
      assert ws[..|ws|] == ws;
      var ok := ApplyPuts(rec, epoch, failAt);
      if !ok { return Failed(StorageError); }
      ok := ApplyDeletes(rec, epoch, failAt, old(storage.table), old(buffer.View()));
      if !ok { return Failed(StorageError); }
      var _ := lockTable.Release();
      buffer.ProcessTransactionComplete(t);
      res := Done(());
    }

    method ApplyPuts(rec: Overlays.Record, epoch: Epoch, failAt: Option<nat>) returns (ok: bool)
      modifies storage, buffer
      ensures var ws := Overlays.RowsFor(rec, epoch);
              var k := Stop(failAt, |rec.puts|);
              && k <= |ws| && (ok <==> k == |rec.puts|)
              && storage.table == Records.WriteAll(old(storage.table), ws[..k])
              && buffer.View() == Updates(old(buffer.View()), ws[..k])
    {
      ghost var ws := Overlays.RowsFor(rec, epoch);
      hide Overlays.RowsFor, Prefetching.Update, Records.Write;
      assert |ws| == |rec.puts| + |rec.deletes| by { Rows(rec, epoch); }
      for i := 0 to |rec.puts|
        invariant i <= Stop(failAt, |rec.puts|)
        invariant storage.table == Records.WriteAll(old(storage.table), ws[..i])
        invariant buffer.View() == Updates(old(buffer.View()), ws[..i])
      {
        if failAt == Some(i) { return false; }
        Rows(rec, epoch);
        WriteAllSplit(old(storage.table), ws, i);
        UpdatesSplit(old(buffer.View()), ws, i);
        storage.Put(rec.puts[i].0, epoch, Records.Live(rec.puts[i].1));
        buffer.Upsert(rec.puts[i].0, rec.puts[i].1);
      }
      ok := true;
    }

    method ApplyDeletes(rec: Overlays.Record, epoch: Epoch, failAt: Option<nat>, ghost table: Records.Table,
        ghost b: Prefetching.Buffer)
      returns (ok: bool)
      requires var ws := Overlays.RowsFor(rec, epoch);
               && |rec.puts| <= |ws| && Stop(failAt, |rec.puts|) == |rec.puts|
               && storage.table == Records.WriteAll(table, ws[..|rec.puts|])
               && buffer.View() == Updates(b, ws[..|rec.puts|])
      modifies storage, buffer
      ensures var ws := Overlays.RowsFor(rec, epoch);
              var k := Stop(failAt, |ws|);
              && (ok <==> k == |ws|)
              && storage.table == Records.WriteAll(table, ws[..k])
              && buffer.View() == Updates(b, ws[..k])
    {
      ghost var ws := Overlays.RowsFor(rec, epoch);
      hide Overlays.RowsFor, Prefetching.Update, Records.Write, Records.WriteAll, Updates;
      assert |ws| == |rec.puts| + |rec.deletes| by { Rows(rec, epoch); }
      for i := 0 to |rec.deletes|
        invariant |rec.puts| + i <= Stop(failAt, |ws|)
        invariant storage.table == Records.WriteAll(table, ws[..|rec.puts| + i])
        invariant buffer.View() == Updates(b, ws[..|rec.puts| + i])
      {
        if failAt == Some(|rec.puts| + i) { return false; }
        Rows(rec, epoch);
        WriteAllSplit(table, ws, |rec.puts| + i);
        UpdatesSplit(b, ws, |rec.puts| + i);
        storage.Put(rec.deletes[i], epoch, Records.Tombstone);
        buffer.Delete(rec.deletes[i]);
      }
      ok := true;
    }
  }

  lemma Rows(rec: Overlays.Record, epoch: Epoch)
    ensures var ws := Overlays.RowsFor(rec, epoch);
            && |ws| == |rec.puts| + |rec.deletes|
            && (forall i :: 0 <= i < |rec.puts| ==>
                   ws[i] == Records.Put(rec.puts[i].0, epoch, Records.Live(rec.puts[i].1)))
            && (forall i :: 0 <= i < |rec.deletes| ==>
                   ws[|rec.puts| + i] == Records.Put(rec.deletes[i], epoch, Records.Tombstone))
  {
  }
}
