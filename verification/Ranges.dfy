/**
 * What a server holds in memory for one loaded range, and what each handler does to it
 * (rangeserver/src/range_manager/impl.rs).
 */
module Ranges {
  import opened Base
  import opened Leasing
  import Locking
  import Records
  import Overlays

  datatype Memory = Memory(
    lock: Locking.Lock,
    highest: Epoch,
    lease: Lease,
    prepared: map<TxId, Overlays.Record>)

  /** A prepare reply. */
  datatype Vote = Vote(highest: Epoch, lease: Lease)

  predicate Holds(mem: Memory, t: TxId) {
    mem.lock.holder == Some(t)
  }

  function Request(mem: Memory, t: TxId): Memory {
    mem.(lock := Locking.Acquire(mem.lock, t))
  }

  function VoteOf(mem: Memory): Vote {
    Vote(mem.highest, mem.lease)
  }

  function Prepare(mem: Memory, t: TxId, rec: Overlays.Record): Memory {
    mem.(prepared := mem.prepared[t := rec])
  }

  /** An abort by anyone but the holder is ignored; the prepare record, if any, stays behind. */
  function Abort(mem: Memory, t: TxId): Memory {
    if Holds(mem, t) then mem.(lock := Locking.Release(mem.lock)) else mem
  }

  /** Who holds the lock once its holder lets go: the first in the queue, or nobody. */
  function NextHolder(mem: Memory): Option<TxId> {
    if mem.lock.queue == [] then None else Some(mem.lock.queue[0])
  }

  /** An abort leaves the transaction without the lock; if it held it, the next one has it now. */
  lemma AbortFrees(mem: Memory, t: TxId)
    requires Locking.Ordered(mem.lock)
    ensures var mem' := Abort(mem, t);
            && !Holds(mem', t)
            && (Holds(mem, t) ==> t !in Locking.Known(mem'.lock) && mem'.lock.holder == NextHolder(mem))
            && (!Holds(mem, t) ==> mem' == mem)
            && (forall u :: u in Locking.Known(mem.lock) && u != t ==> u in Locking.Known(mem'.lock))
            && mem'.highest == mem.highest && mem'.lease == mem.lease && mem'.prepared == mem.prepared
  {
    Locking.ReleaseHandsOver(mem.lock);
  }

  /** The writes a commit applies: those prepared. */
  function Pending(mem: Memory, t: TxId): Overlays.Record {
    if t in mem.prepared then mem.prepared[t] else Overlays.Record([], [])
  }

  /** A commit by the holder raises the highest known epoch, writes, then releases; otherwise it is ignored. */
  function Commit(mem: Memory, t: TxId, e: Epoch): Memory {
    if !Holds(mem, t) then mem
    else mem.(lock := Locking.Release(mem.lock), highest := Max(mem.highest, e), prepared := mem.prepared - {t})
  }

  /** What that commit leaves in storage. */
  function Written(mem: Memory, table: Records.Table, t: TxId, e: Epoch): Records.Table {
    if Holds(mem, t) then Overlays.ApplyRecord(table, Pending(mem, t), e) else table
  }

  /** A commit whose log append fails has already raised the highest known epoch. */
  function CommitLogFailure(mem: Memory, t: TxId, e: Epoch): Memory {
    if Holds(mem, t) then mem.(highest := Max(mem.highest, e)) else mem
  }

  /** A commit leaves the transaction without lock and record, and its leader aware of the epoch. */
  lemma CommitFrees(mem: Memory, t: TxId, e: Epoch)
    requires Locking.Ordered(mem.lock) && Holds(mem, t)
    ensures var mem' := Commit(mem, t, e);
            && t !in Locking.Known(mem'.lock) && mem'.lock.holder == NextHolder(mem)
            && (forall u :: u in Locking.Known(mem.lock) && u != t ==> u in Locking.Known(mem'.lock))
            && t !in mem'.prepared && (forall u :: u in mem.prepared && u != t ==>
                                                     u in mem'.prepared && mem'.prepared[u] == mem.prepared[u])
            && mem'.highest >= e && mem'.highest >= mem.highest && mem'.highest in {mem.highest, e}
            && mem'.lease == mem.lease
  {
    Locking.ReleaseHandsOver(mem.lock);
  }

  function Renew(mem: Memory, epoch: Epoch, n: nat): Memory {
    mem.(lease := RenewLease(mem.lease, epoch, n), highest := Max(mem.highest, epoch + 1))
  }

  /** A new leader starts with empty locks and prepare records, and a lease past the one it found. */
  function Load(prev: Lease, epoch: Epoch, n: nat): Memory {
    Memory(Locking.FREE, epoch + 1, LoadLease(prev, epoch, n), map[])
  }
}
