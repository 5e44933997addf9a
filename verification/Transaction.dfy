/** The coordinator's transaction object (coordinator/src/transaction.rs). */
module Transactions {
  import opened Base
  import opened Leasing
  import Overlays
  import Ranges
  import Protocol
  import Decisions
  import TxStateStores

  datatype State = Running | Preparing | Aborted | Committed

  datatype AbortReason = Other | RangeLeadershipChanged | PrepareFailed | RangeLeaseExpired

  datatype Error = TransactionNoLongerRunning | TransactionAborted(reason: AbortReason)

  datatype Result<+T> = Ok(value: T) | Err(error: Error) | Panicked

  /** What a prepare task comes back with; an error of the range client makes the coordinator panic. */
  datatype Reply = Voted(vote: Ranges.Vote) | TaskFailed | ClientError

  /** The reply to a get: the value and the leader that served it, or -1 if the range changed leader meanwhile. */
  datatype GetReply = GetReply(val: Option<Bytes>, leader: int) | GetError

  const INVALID_LEADER: int := -1

  function NotRunning(s: State): Error {
    if s.Aborted? then TransactionAborted(Other) else TransactionNoLongerRunning
  }

  /** The highest of the epoch read and the epochs reported so far. */
  function EpochOver(readEpoch: Epoch, replies: seq<Reply>): Epoch
    decreases |replies|
  {
    if replies == [] then readEpoch
    else
      var before := EpochOver(readEpoch, replies[..|replies| - 1]);
      match replies[|replies| - 1]
      case Voted(v) => Max(before, v.highest)
      case _ => before
  }

  ghost predicate AllVoted(replies: seq<Reply>) {
    forall i :: 0 <= i < |replies| ==> replies[i].Voted?
  }

  /** A reply that is not a vote, while all before it are. */
  ghost predicate FirstFailure(replies: seq<Reply>, i: int) {
    0 <= i < |replies| && !replies[i].Voted? && forall j :: 0 <= j < i ==> replies[j].Voted?
  }

  /** The store has the transaction as committed, on which recording an abort panics. */
  predicate Refuses(rows: Decisions.Rows, t: TxId) {
    t in rows && rows[t].Committed?
  }

  ghost predicate AllCover(replies: seq<Reply>, e: Epoch) {
    forall i :: 0 <= i < |replies| && replies[i].Voted? ==> Covers(replies[i].vote.lease, e)
  }

  /** The replies are exactly the votes of the participants, in whatever order they arrived. */
  ghost predicate Collects(replies: seq<Reply>, votes: map<RangeId, Ranges.Vote>) {
    && (forall r :: r in votes ==> Voted(votes[r]) in replies)
    && (forall x :: x in replies ==> x.Voted? && exists r :: r in votes && votes[r] == x.vote)
  }

  lemma {:induction false} EpochOverBounds(readEpoch: Epoch, replies: seq<Reply>)
    ensures var e := EpochOver(readEpoch, replies);
            && e >= readEpoch
            && (forall x :: x in replies && x.Voted? ==> x.vote.highest <= e)
            && (e == readEpoch || exists x :: x in replies && x.Voted? && x.vote.highest == e)
    decreases |replies|
  {
    if replies != [] {
      var init, last := replies[..|replies| - 1], replies[|replies| - 1];
      EpochOverBounds(readEpoch, init);
      forall x | x in replies ensures x in init || x == last { }
      assert last in replies;
      forall x | x in init ensures x in replies { }
    }
  }

  /** Whatever the order of arrival, the coordinator picks the commit epoch of the protocol and checks every lease. */
  lemma PicksCommitEpoch(readEpoch: Epoch, replies: seq<Reply>, votes: map<RangeId, Ranges.Vote>, e: Epoch)
    requires Collects(replies, votes)
    ensures Protocol.IsCommitEpoch(e, readEpoch, votes) <==> e == EpochOver(readEpoch, replies)
    ensures Protocol.LeasesCover(votes, e) <==> AllCover(replies, e)
  {
    EpochOverBounds(readEpoch, replies);
    var m := EpochOver(readEpoch, replies);
    forall r | r in votes ensures votes[r].highest <= m { assert Voted(votes[r]) in replies; }
    if m != readEpoch {
      var x :| x in replies && x.Voted? && x.vote.highest == m;
      var r :| r in votes && votes[r] == x.vote;
    }
    if Protocol.LeasesCover(votes, e) {
      forall i | 0 <= i < |replies| && replies[i].Voted? ensures Covers(replies[i].vote.lease, e) {
        assert replies[i] in replies;
      }
    }
    if AllCover(replies, e) {
      forall r | r in votes ensures Covers(votes[r].lease, e) {
        var i :| 0 <= i < |replies| && replies[i] == Voted(votes[r]);
      }
    }
  }

  class Transaction {
    const id: TxId
    var state: State
    var participants: Overlays.Participants

    constructor (t: TxId)
      ensures id == t && state == Running && participants == map[]
    {
      id := t;
      state := Running;
      participants := map[];
    }

    /** Buffers a write: the key leaves the delete set and enters the write set of its range. */
    method Put(r: RangeId, k: Bytes, v: Bytes) returns (res: Result<()>)
      modifies this`participants
      ensures res.Ok? <==> state == Running
      ensures state == Aborted ==> res == Err(TransactionAborted(Other))
      ensures state == Preparing || state == Committed ==> res == Err(TransactionNoLongerRunning)
      ensures participants == if res.Ok?
                              then Overlays.Buffer(old(participants), Overlays.OpPut(r, k, v)) else old(participants)
    {
      if state != Running { return Err(NotRunning(state)); }
      var p := GetParticipantRange(r);
      var deletes := p.deleteset - {k};
      var writes := p.writeset[k := v];
      participants := participants[r := p.(deleteset := deletes, writeset := writes)];
      res := Ok(());
    }

    /** Buffers a delete: the key leaves the write set and enters the delete set of its range. */
    method Del(r: RangeId, k: Bytes) returns (res: Result<()>)
      modifies this`participants
      ensures res.Ok? <==> state == Running
      ensures state == Aborted ==> res == Err(TransactionAborted(Other))
      ensures state == Preparing || state == Committed ==> res == Err(TransactionNoLongerRunning)
      ensures participants == if res.Ok?
                              then Overlays.Buffer(old(participants), Overlays.OpDel(r, k)) else old(participants)
    {
      if state != Running { return Err(NotRunning(state)); }
      var p := GetParticipantRange(r);
      var writes := p.writeset - {k};
      var deletes := p.deleteset + {k};
      participants := participants[r := p.(writeset := writes, deleteset := deletes)];
      res := Ok(());
    }

    method GetParticipantRange(r: RangeId) returns (p: Overlays.Participant)
      modifies this`participants
      ensures p == Overlays.PartOf(old(participants), r)
      ensures participants == old(participants)[r := p]
    {
      if r !in participants {
        participants := participants[r := Overlays.FRESH];
      }
      p := participants[r];
    }

    /**
     * Reads its own writes; otherwise takes the range's reply if it comes from the leader that served the
     * earlier gets, or from any if there were none. Any other reply aborts the transaction.
     */
    method Get(r: RangeId, k: Bytes, reply: GetReply, store: TxStateStores.TxStateStore)
      returns (res: Result<Option<Bytes>>)
      requires reply.GetReply? ==> reply.leader >= INVALID_LEADER
      modifies this, store
      ensures old(state) == Aborted ==> res == Err(TransactionAborted(Other))
      ensures old(state) == Preparing || old(state) == Committed ==> res == Err(TransactionNoLongerRunning)
      ensures old(state) != Running ==> unchanged(this) && unchanged(store)
      ensures var p := Overlays.PartOf(old(participants), r);
              old(state) == Running ==>
                && (Overlays.Buffered(p, k) ==>
                      && res == Ok(Overlays.ReadThrough(p, k, None))
                      && participants == Overlays.Buffer(old(participants), Overlays.OpGet(r, k)))
                && (!Overlays.Buffered(p, k) && reply.GetError? ==> res == Panicked)
                && (!Overlays.Buffered(p, k) && reply.GetReply? ==>
                      (res.Ok? <==> reply.leader != INVALID_LEADER
                                    && (p.leader == Overlays.UNSET_LEADER || p.leader == reply.leader)))
                && (!Overlays.Buffered(p, k) && res.Ok? ==>
                      && res.value == reply.val
                      && participants ==
                           old(participants)[r := p.(seen := p.seen + {(k, reply.val)}, leader := reply.leader)])
                && (res.Ok? || reply.GetError? ==> state == Running && unchanged(store))
                && (!res.Ok? && reply.GetReply? ==>
                      && res == (if old(Refuses(store.rows, id)) then Panicked
                                 else Err(TransactionAborted(RangeLeadershipChanged)))
                      && state == Aborted && store.rows == Decisions.TryAbort(old(store.rows), id).0)
      ensures old(state) == Running && !Overlays.Buffered(Overlays.PartOf(old(participants), r), k)
              && reply.GetReply? && reply.leader != INVALID_LEADER ==>
                forall c: Protocol.Coord :: c.parts == old(participants) && c.phase.Running? ==>
                  && (Protocol.TakeReply(c, r, k, reply.val, reply.leader).phase.Running? <==> res.Ok?)
                  && (res.Ok? ==> Protocol.TakeReply(c, r, k, reply.val, reply.leader).parts == participants)
    {
      if state != Running { return Err(NotRunning(state)); }
      var p := GetParticipantRange(r);
      if k in p.writeset { return Ok(Some(p.writeset[k])); }
      if k in p.deleteset { return Ok(None); }
      if reply.GetError? { return Panicked; }
      var leader := p.leader;
      if reply.leader != INVALID_LEADER && leader == Overlays.UNSET_LEADER {
        leader := reply.leader;
      }
      if reply.leader != leader {
        var aborted := RecordAbort(store);
        return if aborted then Err(TransactionAborted(RangeLeadershipChanged)) else Panicked;
      }
      participants := participants[r := p.(seen := p.seen + {(k, reply.val)}, leader := leader)];
      res := Ok(reply.val);
    }

    /** Records the abort; the caller panics if the store answers that the transaction is committed. */
    method RecordAbort(store: TxStateStores.TxStateStore) returns (aborted: bool)
      modifies this`state, store
      ensures state == Aborted
      ensures store.rows == Decisions.TryAbort(old(store.rows), id).0
      ensures aborted <==> !old(Refuses(store.rows, id))
    {
      state := Aborted;
      var outcome := store.TryAbortTransaction(id);
      aborted := outcome.TransactionIsAborted?;
    }

    method Abort(store: TxStateStores.TxStateStore) returns (res: Result<()>)
      modifies this`state, store
      ensures old(state) == Running ==>
                res == (if old(Refuses(store.rows, id)) then Panicked else Ok(())) && state == Aborted
      ensures old(state) == Aborted ==> res == Ok(()) && state == Aborted
      ensures old(state) != Running && old(state) != Aborted ==>
                res == Err(TransactionNoLongerRunning) && state == old(state)
      ensures store.rows == if old(state) == Running then Decisions.TryAbort(old(store.rows), id).0 else old(store.rows)
    {
      if state == Aborted { return Ok(()); }
      if state != Running { return Err(NotRunning(state)); }
      var aborted := RecordAbort(store);
      res := if aborted then Ok(()) else Panicked;
    }

    /**
     * Commits at the highest epoch reported, if every participant voted, every lease covers it and the
     * store accepts. In every other case nothing is recorded as committed. The first reply that is not a
     * vote decides: a failed task aborts, an error of the range client leaves the transaction preparing.
     */
    method Commit(store: TxStateStores.TxStateStore, readEpoch: Epoch, replies: seq<Reply>) returns (res: Result<Epoch>)
      modifies this`state, store
      ensures old(state) == Aborted ==> res == Err(TransactionAborted(Other))
      ensures old(state) == Preparing || old(state) == Committed ==> res == Err(TransactionNoLongerRunning)
      ensures old(state) != Running ==> state == old(state) && unchanged(store)
      ensures old(state) == Running ==>
                forall i :: FirstFailure(replies, i) ==>
                  if replies[i].ClientError? then res == Panicked && state == Preparing && unchanged(store)
                  else
                    && res == (if old(Refuses(store.rows, id)) then Panicked
                               else Err(TransactionAborted(PrepareFailed)))
                    && state == Aborted && store.rows == Decisions.TryAbort(old(store.rows), id).0
      ensures old(state) == Running && AllVoted(replies) ==>
                var e := EpochOver(readEpoch, replies);
                if !AllCover(replies, e) then
                  && res == (if old(Refuses(store.rows, id)) then Panicked
                             else Err(TransactionAborted(RangeLeaseExpired)))
                  && state == Aborted && store.rows == Decisions.TryAbort(old(store.rows), id).0
                else
                  && store.rows == Decisions.TryCommit(old(store.rows), id, e).0
                  && (if Decisions.TryCommit(old(store.rows), id, e).1.TransactionIsAborted? then
                        res == Err(TransactionAborted(Other)) && state == Preparing
                      else res == Ok(e) && state == Committed)
      ensures old(state) == Running && !old(Refuses(store.rows, id)) ==>
                (res.Ok? <==> id in store.rows && store.rows[id].Committed?)
    {
      if state != Running { return Err(NotRunning(state)); }
      state := Preparing;
      var epoch := readEpoch;
      var leases: seq<Lease> := [];
      for i := 0 to |replies|
        invariant state == Preparing && unchanged(store)
        invariant |leases| == i
        invariant forall j :: 0 <= j < i ==> replies[j].Voted? && leases[j] == replies[j].vote.lease
        invariant epoch == EpochOver(readEpoch, replies[..i])
      {
        assert replies[..i + 1][..i] == replies[..i];
        match replies[i] {
          case ClientError =>
            return Panicked;
          case TaskFailed =>
            var aborted := RecordAbort(store);
            return if aborted then Err(TransactionAborted(PrepareFailed)) else Panicked;
          case Voted(v) =>
            leases := leases + [v.lease];
            if v.highest > epoch {
              epoch := v.highest;
            }
        }
      }
      assert replies[..|replies|] == replies;
      for i := 0 to |leases|
        invariant state == Preparing && unchanged(store)
        invariant forall j :: 0 <= j < i ==> Covers(leases[j], epoch)
      {
        if leases[i].lo <= epoch && leases[i].hi >= epoch {
          continue;
        }
        var aborted := RecordAbort(store);
        return if aborted then Err(TransactionAborted(RangeLeaseExpired)) else Panicked;
      }
      var outcome := store.TryCommitTransaction(id, epoch);
      if outcome.TransactionIsAborted? {
        return Err(TransactionAborted(Other));
      }
      state := Committed;
      res := Ok(epoch);
    }
  }
}
