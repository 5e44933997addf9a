/** What single steps of the protocol bring about, and what aborted transactions leave behind, over every run. */
module ProtocolEffects {
  import opened Base
  import opened Leasing
  import opened Ranges
  import opened Protocol
  import opened ProtocolLocks
  import opened ProtocolHistory
  import Locking
  import Records
  import Overlays
  import Decisions

  // ---------------------------------------------------------------- gets

  /**
   * The reply to a get aborts the transaction if and only if an earlier get of the range was served under
   * another number. Otherwise the value that storage has is remembered, with the number.
   */
  lemma GetAbortsIff(s: System, t: TxId, r: RangeId, m: nat, k: Bytes)
    requires Enabled(s, FinishGet(t, r, m, k))
    ensures var p := Overlays.PartOf(s.txs[t].parts, r);
            var s' := Apply(s, FinishGet(t, r, m, k));
            && t in s'.txs && s'.txs[t].waitingOn == None
            && (s'.txs[t].phase == Aborted <==> p.leader != Overlays.UNSET_LEADER && p.leader != m)
            && (s'.txs[t].phase != Aborted ==>
                  && s'.txs[t].phase == Running && r in s'.txs[t].parts && s'.txs[t].parts[r].leader == m
                  && s'.txs[t].parts[r].seen == p.seen + {(k, Records.Get(s.stores[r].table, k))})
  {
  }

  // ---------------------------------------------------------------- decisions

  /** What a decision comes to, given whether every vote's lease covers the epoch. */
  ghost predicate Comes(s: System, s': System, t: TxId, e: Epoch, cover: bool) {
    && t in s'.txs
    && (s'.txs[t].phase == Committed(e) <==> cover && t in s.rows && !s.rows[t].Aborted?)
    && (s'.txs[t].phase == Aborted <==> !cover)
    && (s'.txs[t].phase == Preparing <==> cover && (t !in s.rows || s.rows[t].Aborted?))
    && (t in s'.rows && s'.rows[t].Committed? <==> s'.txs[t].phase == Committed(e))
    && (s'.txs[t].phase == Committed(e) ==> s'.rows[t].epoch == e)
  }

  lemma DecideComes(s: System, t: TxId, e: Epoch)
    requires Is(s, t, Preparing) && (t in s.rows ==> !s.rows[t].Committed?)
    ensures Comes(s, DecideStep(s, t, e), t, e, LeasesCover(s.txs[t].votes, e))
  {
    hide LeasesCover;
  }

  /**
   * Over every run: a decision commits if and only if every vote's lease covers the epoch and the store has
   * not recorded an abort; it aborts if and only if some lease does not cover it. Only a commit is recorded.
   */
  lemma DecidesIff(s: System, acts: seq<Action>, t: TxId, readEpoch: Epoch, e: Epoch)
    requires Initial(s) && IsRun(s, acts) && Enabled(After(s, acts), Decide(t, readEpoch, e))
    ensures var s1 := After(s, acts);
            Comes(s1, Apply(s1, Decide(t, readEpoch, e)), t, e,
                  forall r :: r in s1.txs[t].votes ==> Covers(s1.txs[t].votes[r].lease, e))
  {
    hide Weak, Comes, DecideStep;
    InitialWeak(s);
    RunWeak(s, acts);
    var s1 := After(s, acts);
    hide Initial, IsRun, After;
    NotCommitted(s1, t);
    DecideComes(s1, t, e);
  }

  lemma NotCommitted(s: System, t: TxId)
    requires Weak(s) && Is(s, t, Preparing)
    ensures t in s.rows ==> !s.rows[t].Committed?
  {
    hide PlacesOk, SentOk, Known, TermOk, HistoryOk, AppliedOk, Released;
    assert TxOk(s.txs[t], t, s.rows);
  }

  /** Recording an abort settles every transaction that is not committed. */
  lemma StoreAbortSettles(s: System, t: TxId)
    requires Enabled(s, StoreAbort(t))
    ensures var s' := Apply(s, StoreAbort(t));
            && (t in s.rows <==> t in s'.rows)
            && (t in s.rows ==> s'.rows[t] == if s.rows[t].Committed? then s.rows[t] else Decisions.Aborted)
            && s'.txs == s.txs && forall u :: u in s.rows && u != t ==> u in s'.rows && s'.rows[u] == s.rows[u]
  {
  }

  // ---------------------------------------------------------------- renewals

  /**
   * A renewal of the number in the row moves row and memory to one lease, which reaches past the epoch
   * read, and raises the known epoch; a renewal of any other number does nothing.
   */
  lemma RenewalMovesIff(s: System, r: RangeId, m: nat, epoch: Epoch, n: nat)
    requires Weak(s) && Enabled(s, RenewLeaseAt(r, m, epoch, n))
    ensures var s' := Apply(s, RenewLeaseAt(r, m, epoch, n));
            && (s.stores[r].leader != m ==> s' == s)
            && (s.stores[r].leader == m ==>
                  && (r, m) in s'.places && r in s'.stores && s'.stores[r].lease == s'.places[(r, m)].lease
                  && s'.places[(r, m)].lease.hi > s.places[(r, m)].lease.hi
                  && s'.places[(r, m)].lease.hi > epoch + n && s'.places[(r, m)].highest > epoch
                  && s'.places[(r, m)].lock == s.places[(r, m)].lock)
  {
    hide Weak, Renew, DueForRenewal;
    PlaceShape(s, (r, m));
    RenewReaches(s.places[(r, m)], epoch, n);
  }

  lemma RenewReaches(mem: Memory, epoch: Epoch, n: nat)
    requires mem.lease.lo <= mem.lease.hi && DueForRenewal(mem.lease, epoch, n)
    ensures var mem' := Renew(mem, epoch, n);
            && mem'.lease.hi > mem.lease.hi && mem'.lease.hi > epoch + n
            && mem'.highest > epoch && mem'.lock == mem.lock
  {
    RenewalBounds(mem.lease, epoch, n);
  }

  lemma PlaceShape(s: System, pl: Place)
    requires Weak(s) && pl in s.places
    ensures s.places[pl].lease.lo <= s.places[pl].lease.hi && Locking.Ordered(s.places[pl].lock)
  {
    hide TxOk, SentOk, Known, TermOk, HistoryOk, AppliedOk, Released;
    assert pl.0 in s.stores && PlaceOk(s.stores[pl.0], s.floors[pl], pl.1, s.places[pl]);
  }

  // ---------------------------------------------------------------- aborts

  /**
   * Over every run: once an abort has been processed at a place, the transaction does not hold the lock
   * there. If it held it, it does not wait for it either, and the first one waiting has it.
   */
  lemma AbortsReleaseLocks(s: System, acts: seq<Action>, t: TxId, r: RangeId, m: nat)
    requires Initial(s) && IsRun(s, acts) && Enabled(After(s, acts), RangeAbort(t, r, m))
    ensures var s1 := After(s, acts);
            var s2 := Apply(s1, RangeAbort(t, r, m));
            && (r, m) in s2.places && !Holds(s2.places[(r, m)], t)
            && (Holds(s1.places[(r, m)], t) ==>
                  && t !in Locking.Known(s2.places[(r, m)].lock)
                  && s2.places[(r, m)].lock.holder == NextHolder(s1.places[(r, m)]))
  {
    hide Weak, Abort;
    InitialWeak(s);
    RunWeak(s, acts);
    var s1 := After(s, acts);
    hide IsRun, After, Initial;
    PlaceShape(s1, (r, m));
    AbortFrees(s1.places[(r, m)], t);
  }

  /** An aborted transaction that neither holds nor waits for the lock of a place. */
  ghost predicate Out(s: System, t: TxId, pl: Place) {
    Is(s, t, Aborted) && pl in s.places && t !in Locking.Known(s.places[pl].lock)
  }

  lemma RequestByOther(mem: Memory, t: TxId, u: TxId)
    requires u != t && t !in Locking.Known(mem.lock)
    ensures t !in Locking.Known(Request(mem, u).lock)
  {
    Locking.AcquireKeepsPlaces(mem.lock, u);
  }

  lemma ReleaseByOther(l: Locking.Lock, t: TxId)
    requires t !in Locking.Known(l)
    ensures t !in Locking.Known(Locking.Release(l))
  {
    if l.queue != [] { assert forall u :: u in l.queue[1..] ==> u in l.queue; }
  }

  lemma RequestOut(s: System, a: Action, t: TxId, pl: Place)
    requires Enabled(s, a) && Out(s, t, pl) && (a.AskGet? || a.AskPrepare?)
    ensures Out(Apply(s, a), t, pl)
  {
    hide Request, Locking.Known, Locking.Acquire;
    if (a.r, a.m) == pl { RequestByOther(s.places[pl], t, a.t); }
  }

  lemma ReleaseOut(s: System, a: Action, t: TxId, pl: Place)
    requires Enabled(s, a) && Out(s, t, pl) && (a.RangeAbort? || a.RangeCommit?)
    ensures Out(Apply(s, a), t, pl)
  {
    hide Written, Locking.Known, Locking.Release;
    ReleaseByOther(s.places[pl].lock, t);
  }

  lemma LoadOut(s: System, a: Action, t: TxId, pl: Place)
    requires Enabled(s, a) && Out(s, t, pl) && (a.RenewLeaseAt? || a.LoadRange?)
    ensures Out(Apply(s, a), t, pl)
  {
    hide RenewLease, LoadLease;
  }

  lemma OtherOut(s: System, a: Action, t: TxId, pl: Place)
    requires Enabled(s, a) && Out(s, t, pl)
    requires !a.AskGet? && !a.AskPrepare? && !a.RangeAbort? && !a.RangeCommit? && !a.RenewLeaseAt? && !a.LoadRange?
    ensures Out(Apply(s, a), t, pl)
  {
    NotOwn(s, a, t);
    OtherTx(s, a, t);
    SameLocks(s, a, pl);
    hide Enabled, Apply, Locking.Known;
  }

  /** An aborted transaction takes no steps of its own. */
  lemma NotOwn(s: System, a: Action, t: TxId)
    requires Enabled(s, a) && Is(s, t, Aborted)
    ensures AtLeader(a) || a.RangeCommit? || a.t != t
  {
    hide Overlays.Enumerates, IsCommitEpoch, Holds, Overlays.Buffered;
  }

  lemma SameLocks(s: System, a: Action, pl: Place)
    requires Enabled(s, a) && pl in s.places
    requires !a.AskGet? && !a.AskPrepare? && !a.RangeAbort? && !a.RangeCommit? && !a.RenewLeaseAt? && !a.LoadRange?
    ensures pl in Apply(s, a).places && Apply(s, a).places[pl].lock == s.places[pl].lock
  {
    hide Enabled, TakeReply, LeasesCover, Commits, Overlays.BufferPut, Overlays.BufferDel, SetPart, Records.Get;
    if a.Decide? { DecideEnabled(s, a); }
  }

  lemma StepOut(s: System, a: Action, t: TxId, pl: Place)
    requires Enabled(s, a) && Out(s, t, pl)
    ensures Out(Apply(s, a), t, pl)
  {
    hide Enabled, Apply, Out;
    if a.AskGet? || a.AskPrepare? { RequestOut(s, a, t, pl); }
    else if a.RangeAbort? || a.RangeCommit? { ReleaseOut(s, a, t, pl); }
    else if a.RenewLeaseAt? || a.LoadRange? { LoadOut(s, a, t, pl); }
    else { OtherOut(s, a, t, pl); }
  }

  /** Whatever follows, an aborted transaction that is out of a lock stays out of it. */
  lemma {:induction false} AbortedStaysOut(s: System, acts: seq<Action>, t: TxId, pl: Place)
    requires Out(s, t, pl) && IsRun(s, acts)
    ensures Out(After(s, acts), t, pl)
    decreases |acts|
  {
    hide Out;
    if acts != [] {
      StepOut(s, acts[0], t, pl);
      AbortedStaysOut(Apply(s, acts[0]), acts[1..], t, pl);
    }
  }

  /**
   * Over every run: once the abort of a transaction that held the lock of a place, or never asked for it,
   * has been processed there, the transaction never has that lock again, whatever follows.
   */
  lemma AbortIsForGood(s: System, acts: seq<Action>, t: TxId, r: RangeId, m: nat, more: seq<Action>)
    requires Initial(s) && IsRun(s, acts) && Enabled(After(s, acts), RangeAbort(t, r, m))
    requires t !in After(s, acts).places[(r, m)].lock.queue
    requires IsRun(Apply(After(s, acts), RangeAbort(t, r, m)), more)
    ensures Out(After(Apply(After(s, acts), RangeAbort(t, r, m)), more), t, (r, m))
  {
    hide Out;
    var s1 := After(s, acts);
    AbortsReleaseLocks(s, acts, t, r, m);
    assert Out(Apply(s1, RangeAbort(t, r, m)), t, (r, m)) by { AbortOut(s1, t, r, m); }
    AbortedStaysOut(Apply(s1, RangeAbort(t, r, m)), more, t, (r, m));
  }

  lemma AbortOut(s: System, t: TxId, r: RangeId, m: nat)
    requires Enabled(s, RangeAbort(t, r, m)) && t !in s.places[(r, m)].lock.queue
    requires var s' := Apply(s, RangeAbort(t, r, m));
             (r, m) in s'.places && !Holds(s'.places[(r, m)], t)
             && (Holds(s.places[(r, m)], t) ==> t !in Locking.Known(s'.places[(r, m)].lock))
    ensures Out(Apply(s, RangeAbort(t, r, m)), t, (r, m))
  {
  }
}
