/** What the commit protocol guarantees over whole runs, with any number of transactions, ranges and leaders. */
module Serializability {
  import opened Base
  import opened Leasing
  import opened Ranges
  import opened Protocol
  import opened ProtocolLocks
  import opened ProtocolOrder
  import opened ProtocolInvariant
  import opened ProtocolSteps
  import Locking
  import Records
  import Overlays
  import Decisions

  // ---------------------------------------------------------------- runs without harm

  /** Leaders may be replaced, stay on and be unloaded at any time, and be voted for or not, but no step does harm. */
  ghost predicate IsSafeRun(s: System, acts: seq<Action>)
    decreases |acts|
  {
    acts == [] || (Enabled(s, acts[0]) && !Harms(s, acts[0]) && IsSafeRun(Apply(s, acts[0]), acts[1..]))
  }

  lemma InitialInv(s: System)
    requires Initial(s)
    ensures Inv(s)
  {
    hide Weak, Order;
    InitialWeak(s);
    InitialOrder(s);
    WeakShaped(s);
    forall r | r in s.stores
      ensures ServingPlace(s, r) in s.places && r in s.base && Served(s, r)
    {
      InitialServed(s, r);
    }
    hide Served, FirstLoad;
    LocalAll(s);
  }

  lemma InitialServed(s: System, r: RangeId)
    requires Initial(s) && r in s.stores
    ensures r in s.base && ServingPlace(s, r) in s.places && Served(s, r)
  {
    hide Records.WellFormed, Records.Get, HasRow;
    assert ServingPlace(s, r) in s.places;
    assert FirstLoad(s.stores[r], s.places[ServingPlace(s, r)], s.floors[ServingPlace(s, r)], s.applied[r], s.base[r]);
  }

  lemma {:induction false} RunInv(s: System, acts: seq<Action>)
    requires Inv(s) && IsSafeRun(s, acts)
    ensures IsRun(s, acts) && Inv(After(s, acts))
    decreases |acts|
  {
    hide Inv, Harms;
    if acts != [] {
      StepInv(s, acts[0]);
      RunInv(Apply(s, acts[0]), acts[1..]);
    }
  }

  // ---------------------------------------------------------------- serializability

  /**
   * Decision order is a serial order: every committed transaction read exactly what the transactions decided
   * before it left behind, and every range, once the writes due at its serving leader are there, reads as all
   * of them one after the other left it.
   */
  ghost predicate Serializable(s: System) {
    && AllFit(s)
    && (forall i, j :: 0 <= i < j < |s.history| ==> s.history[i].id != s.history[j].id)
    && forall r :: r in s.stores ==>
                     && r in s.base && ServingPlace(s, r) in s.places
                     && Current(s.base[r], s.history, r, s.stores[r].table, Due(s, r))
  }

  lemma InvSerializable(s: System)
    requires Inv(s)
    ensures Serializable(s)
  {
    hide Weak, Order, AllPaired, AllFit, RowsOk, Current, Due;
    HistoryDistinct(s);
    forall r | r in s.stores
      ensures r in s.base && ServingPlace(s, r) in s.places
      ensures Current(s.base[r], s.history, r, s.stores[r].table, Due(s, r))
    {
      RangeAt(s, r);
    }
  }

  lemma HistoryDistinct(s: System)
    requires Weak(s)
    ensures forall i, j :: 0 <= i < j < |s.history| ==> s.history[i].id != s.history[j].id
    ensures forall t :: t in s.txs && s.txs[t].phase.Committed? ==>
              Entry(t, s.txs[t].phase.epoch, s.txs[t].parts) in s.history
  {
    hide PlacesOk, TxOk, SentOk, Known, TermOk, AppliedOk, Released, Listed;
    assert HistoryOk(s.txs, s.history);
  }

  /**
   * The main theorem: every run without harm, of any length, of any transactions over any ranges and leaders, is
   * serializable.
   */
  lemma SafeRunsAreSerializable(s: System, acts: seq<Action>)
    requires Initial(s) && IsSafeRun(s, acts)
    ensures IsRun(s, acts) && Serializable(After(s, acts))
  {
    hide Inv, Serializable;
    InitialInv(s);
    RunInv(s, acts);
    InvSerializable(After(s, acts));
  }

  /** In particular a committed transaction that read a key several times read the same value each time. */
  lemma RepeatedReadsAgree(s: System, acts: seq<Action>, i: nat, r: RangeId, x: (Bytes, Option<Bytes>),
      y: (Bytes, Option<Bytes>))
    requires Initial(s) && IsSafeRun(s, acts) && IsRun(s, acts)
    requires var s' := After(s, acts);
             && i < |s'.history| && r in s'.history[i].parts && r in s'.base
             && x in s'.history[i].parts[r].seen && y in s'.history[i].parts[r].seen && x.0 == y.0
    ensures x == y
  {
    SafeRunsAreSerializable(s, acts);
    hide IsRun, IsSafeRun, ValueAfter;
    assert ReadsFit(After(s, acts).base, After(s, acts).history, i);
  }

  // ---------------------------------------------------------------- epochs, in every run

  /**
   * Over every run: whatever was decided under a later number of a range has a higher epoch than
   * whatever was decided under an earlier one.
   */
  lemma EpochsFollowLeaders(s: System, acts: seq<Action>, t: TxId, u: TxId, r: RangeId)
    requires Initial(s) && IsRun(s, acts)
    requires var s' := After(s, acts);
             && IsCommitted(s'.txs, t, r) && IsCommitted(s'.txs, u, r)
             && r in s'.txs[t].asked && r in s'.txs[u].asked && s'.txs[t].asked[r] < s'.txs[u].asked[r]
    ensures After(s, acts).txs[t].phase.epoch < After(s, acts).txs[u].phase.epoch
  {
    hide Weak;
    InitialWeak(s);
    RunWeak(s, acts);
    EpochsApart(After(s, acts), t, u, r);
  }

  lemma EpochsApart(s: System, t: TxId, u: TxId, r: RangeId)
    requires Weak(s) && IsCommitted(s.txs, t, r) && IsCommitted(s.txs, u, r)
    requires r in s.txs[t].asked && r in s.txs[u].asked && s.txs[t].asked[r] < s.txs[u].asked[r]
    ensures s.txs[t].phase.epoch < s.txs[u].phase.epoch
  {
    hide Weak;
    EpochLeased(s, t, r);
    EpochLeased(s, u, r);
    LeasesApart(s, (r, s.txs[t].asked[r]), (r, s.txs[u].asked[r]));
  }

  /** The number of the range that the i-th transaction was decided under. */
  function NumberOf(s: System, i: nat, r: RangeId): nat {
    if i < |s.history| && s.history[i].id in s.txs && r in s.txs[s.history[i].id].asked then
      s.txs[s.history[i].id].asked[r]
    else 0
  }

  /**
   * Over every run: of two transactions of a range the one decided later has a lower epoch if and only if
   * it was decided under an earlier number. So storage, which reads the highest epoch, reads the last
   * decided writer exactly as long as decisions follow the leaders.
   */
  lemma EpochsFollowDecisions(s: System, acts: seq<Action>, i: nat, j: nat, r: RangeId)
    requires Initial(s) && IsRun(s, acts)
    requires var h := After(s, acts).history; i < j < |h| && r in h[i].parts && r in h[j].parts
    ensures var s' := After(s, acts);
            s'.history[i].epoch <= s'.history[j].epoch <==> NumberOf(s', i, r) <= NumberOf(s', j, r)
  {
    hide Weak, Order;
    InitialWeak(s);
    InitialOrder(s);
    RunOrder(s, acts);
    EpochsIff(After(s, acts), i, j, r);
  }

  lemma EpochsIff(s: System, i: nat, j: nat, r: RangeId)
    requires Weak(s) && Order(s) && i < j < |s.history| && r in s.history[i].parts && r in s.history[j].parts
    ensures s.history[i].epoch <= s.history[j].epoch <==> NumberOf(s, i, r) <= NumberOf(s, j, r)
  {
    hide Weak, Track, VotesAbove;
    HistoryCommitted(s, i);
    HistoryCommitted(s, j);
    var t, u := s.history[i].id, s.history[j].id;
    EpochLeased(s, t, r);
    EpochLeased(s, u, r);
    if NumberOf(s, i, r) < NumberOf(s, j, r) { EpochsApart(s, t, u, r); }
    else if NumberOf(s, j, r) < NumberOf(s, i, r) { EpochsApart(s, u, t, r); }
    else { assert SamePlace(s.txs[t], s.txs[u], r); }
  }

  // ---------------------------------------------------------------- atomic commitment, in every run

  /**
   * Nothing is applied without a recorded commit at that very epoch; a transaction the coordinator
   * aborted is not recorded as committed; every participant of a committed transaction voted and its
   * lease covers the commit epoch.
   */
  ghost predicate Agreement(s: System) {
    && (forall r, i :: r in s.applied && 0 <= i < |s.applied[r]| ==>
          var x := s.applied[r][i];
          x in s.history && r in x.parts && x.id in s.rows && s.rows[x.id] == Decisions.Committed(x.epoch))
    && (forall t :: t in s.txs && s.txs[t].phase.Aborted? ==> t in s.rows && !s.rows[t].Committed?)
    && (forall t :: t in s.txs && s.txs[t].phase.Committed? ==>
          var c := s.txs[t];
          && t in s.rows && s.rows[t] == Decisions.Committed(c.phase.epoch)
          && forall r :: r in c.parts ==> r in c.votes && Covers(c.votes[r].lease, c.phase.epoch))
  }

  lemma WeakAgreement(s: System)
    requires Weak(s)
    ensures Agreement(s)
  {
    hide Weak, SentOk;
    forall t | t in s.txs ensures TxOk(s.txs[t], t, s.rows) { CoordOk(s, t); }
    forall r, i | r in s.applied && 0 <= i < |s.applied[r]|
      ensures var x := s.applied[r][i];
              x in s.history && r in x.parts && x.id in s.rows && s.rows[x.id] == Decisions.Committed(x.epoch)
    {
      AppliedIsCommitted(s, r, i);
      assert TxOk(s.txs[s.applied[r][i].id], s.applied[r][i].id, s.rows);
    }
  }

  /** Over every run, whatever leaders do. */
  lemma RunsAgree(s: System, acts: seq<Action>)
    requires Initial(s) && IsRun(s, acts)
    ensures Agreement(After(s, acts))
  {
    hide Weak, Agreement;
    InitialWeak(s);
    RunWeak(s, acts);
    WeakAgreement(After(s, acts));
  }

  lemma DecisionKept(s: System, a: Action, t: TxId)
    requires Weak(s) && Enabled(s, a) && Decided(s.rows, t)
    ensures Decided(Apply(s, a).rows, t) && Apply(s, a).rows[t] == s.rows[t]
  {
    RowsFrame(s, a);
    RowsListed(s, t);
    hide Weak, Apply, Enabled, RowsAfter;
    if a.Decide? { NotCommittedYet(s, a.t); }
    RowKept(s, a, t);
  }

  lemma NotCommittedYet(s: System, t: TxId)
    requires Weak(s) && Is(s, t, Preparing)
    ensures t in s.rows && !s.rows[t].Committed?
  {
    hide Weak, SentOk;
    CoordOk(s, t);
  }

  lemma RowsListed(s: System, t: TxId)
    requires Weak(s) && t in s.rows
    ensures t in s.txs
  {
    hide PlacesOk, TxOk, SentOk, Known, TermOk, HistoryOk, AppliedOk, Released;
  }

  lemma {:induction false} DecisionsStay(s: System, acts: seq<Action>, t: TxId)
    requires Weak(s) && IsRun(s, acts) && Decided(s.rows, t)
    ensures Decided(After(s, acts).rows, t) && After(s, acts).rows[t] == s.rows[t]
    decreases |acts|
  {
    hide Weak;
    if acts != [] {
      DecisionKept(s, acts[0], t);
      StepWeak(s, acts[0]);
      DecisionsStay(Apply(s, acts[0]), acts[1..], t);
    }
  }

  /** A decision, once recorded in any run, never changes: not its outcome and not its epoch. */
  lemma DecisionsAreFinal(s: System, acts: seq<Action>, more: seq<Action>, t: TxId)
    requires Initial(s) && IsRun(s, acts) && IsRun(After(s, acts), more) && Decided(After(s, acts).rows, t)
    ensures Decided(After(After(s, acts), more).rows, t)
    ensures After(After(s, acts), more).rows[t] == After(s, acts).rows[t]
  {
    hide Weak;
    InitialWeak(s);
    RunWeak(s, acts);
    DecisionsStay(After(s, acts), more, t);
  }

  // ---------------------------------------------------------------- delivery, in every run

  ghost predicate IsApplied(s: System, t: TxId, r: RangeId)
    requires IsCommitted(s.txs, t, r)
  {
    r in s.applied && Entry(t, s.txs[t].phase.epoch, s.txs[t].parts) in s.applied[r]
  }

  /** Over every run: a decided commit has been applied at a range, or holds lock and record where it voted. */
  lemma CommitsAreHeld(s: System, acts: seq<Action>, t: TxId, r: RangeId)
    requires Initial(s) && IsRun(s, acts) && IsCommitted(After(s, acts).txs, t, r)
    ensures var s' := After(s, acts);
            && r in s'.txs[t].asked && (r, s'.txs[t].asked[r]) in s'.places
            && var mem := s'.places[(r, s'.txs[t].asked[r])];
               IsApplied(s', t, r) || (Holds(mem, t) && RecordKept(s'.txs[t].parts[r], t, mem))
  {
    hide Weak, Order;
    InitialWeak(s);
    InitialOrder(s);
    RunOrder(s, acts);
    HeldOrApplied(After(s, acts), t, r);
  }

  lemma HeldOrApplied(s: System, t: TxId, r: RangeId)
    requires Weak(s) && Order(s) && IsCommitted(s.txs, t, r)
    ensures r in s.txs[t].asked && (r, s.txs[t].asked[r]) in s.places
    ensures var mem := s.places[(r, s.txs[t].asked[r])];
            if Holds(mem, t) then !IsApplied(s, t, r) && RecordKept(s.txs[t].parts[r], t, mem) else IsApplied(s, t, r)
  {
    hide Weak, Order, Overlays.Enumerates;
    EpochLeased(s, t, r);
    TrackedAt(s, t, r);
    ReleasedAt(s, (r, s.txs[t].asked[r]));
  }

  /**
   * Over every run: of the commits decided under one number of a range all but the last have been applied,
   * and what has been applied has been applied in decision order.
   */
  lemma CommitsApplyInOrder(s: System, acts: seq<Action>)
    requires Initial(s) && IsRun(s, acts)
    ensures Sequenced(After(s, acts))
  {
    hide Weak, Order, Sequenced;
    InitialWeak(s);
    InitialOrder(s);
    InitialSequenced(s);
    RunSequenced(s, acts);
  }

  /**
   * Over every run: a decided commit that a range has not applied can still reach it, in some continuation,
   * if and only if the server it voted at has not been unloaded there.
   */
  lemma DeliverableIff(s: System, acts: seq<Action>, t: TxId, r: RangeId)
    requires Initial(s) && IsRun(s, acts) && IsCommitted(After(s, acts).txs, t, r) && !IsApplied(After(s, acts), t, r)
    ensures r in After(s, acts).txs[t].asked
    ensures var s' := After(s, acts);
            (r, s'.txs[t].asked[r]) !in s'.down <==>
            exists more :: IsRun(s', more) && IsCommitted(After(s', more).txs, t, r) && IsApplied(After(s', more), t, r)
  {
    hide Weak, Order;
    InitialWeak(s);
    InitialOrder(s);
    RunOrder(s, acts);
    var s' := After(s, acts);
    hide Initial;
    HeldOrApplied(s', t, r);
    if (r, s'.txs[t].asked[r]) !in s'.down {
      ApplyRun(s', t, r);
    } else {
      forall more | IsRun(s', more) && IsCommitted(After(s', more).txs, t, r)
        ensures !IsApplied(After(s', more), t, r)
      {
        LostForGood(s', t, r, more);
      }
    }
  }

  lemma ApplyRun(s: System, t: TxId, r: RangeId)
    requires Weak(s) && IsCommitted(s.txs, t, r) && r in s.txs[t].asked
    requires var pl := (r, s.txs[t].asked[r]); pl in s.places && pl !in s.down && Holds(s.places[pl], t)
    ensures exists more :: IsRun(s, more) && IsCommitted(After(s, more).txs, t, r) && IsApplied(After(s, more), t, r)
  {
    hide Weak, Apply, Enabled, IsRun, After, IsApplied;
    var a := RangeCommit(t, r, s.txs[t].asked[r], true);
    PlaceKnown(s, (r, s.txs[t].asked[r]));
    AppliesAtOnce(s, t, r);
    OneStep(s, a);
    hide IsCommitted;
    var more := [a];
    assert IsRun(s, more) && IsCommitted(After(s, more).txs, t, r) && IsApplied(After(s, more), t, r);
  }

  lemma AppliesAtOnce(s: System, t: TxId, r: RangeId)
    requires IsCommitted(s.txs, t, r) && r in s.txs[t].asked && Up(s, r, s.txs[t].asked[r])
    requires Holds(s.places[(r, s.txs[t].asked[r])], t)
    ensures var a := RangeCommit(t, r, s.txs[t].asked[r], true);
            Enabled(s, a) && IsCommitted(Apply(s, a).txs, t, r) && IsApplied(Apply(s, a), t, r)
  {
    hide Written, Commit;
  }

  lemma OneStep(s: System, a: Action)
    requires Enabled(s, a)
    ensures IsRun(s, [a]) && After(s, [a]) == Apply(s, a)
  {
    hide Enabled, Apply;
    assert [a][1..] == [] && IsRun(Apply(s, a), []) && After(Apply(s, a), []) == Apply(s, a);
  }

  // ---------------------------------------------------------------- deadlock freedom, in every run

  function LocksOf(places: map<Place, Memory>): Locking.Locks<Place> {
    map pl | pl in places :: places[pl].lock
  }

  /**
   * In no reachable state do transactions wait for each other in a circle, across any ranges and any leaders of
   * them.
   */
  lemma RunsDoNotDeadlock(s: System, acts: seq<Action>, chain: seq<TxId>)
    requires Initial(s) && IsRun(s, acts)
    requires |chain| >= 2 && Locking.WaitChain(LocksOf(After(s, acts).places), chain)
    ensures chain[0] != chain[|chain| - 1]
  {
    hide Weak;
    InitialWeak(s);
    RunWeak(s, acts);
    var places := After(s, acts).places;
    forall pl | pl in places ensures Locking.Ordered(places[pl].lock) { FloorKnown(After(s, acts), pl); }
    Locking.NoWaitCycle(LocksOf(places), chain);
  }

  // ---------------------------------------------------------------- commits that are lost

  /** A committed transaction that no server of a range that is still loaded knows of. */
  ghost predicate Gone(s: System, t: TxId, r: RangeId) {
    && t in s.txs && s.txs[t].phase.Committed? && r in s.stores && r in s.applied
    && (forall pl :: pl in s.places && pl.0 == r && pl !in s.down ==> NotAt(s.places[pl], t))
    && NotApplied(s.applied[r], t)
  }

  ghost predicate NotAt(mem: Memory, t: TxId) {
    !Holds(mem, t) && t !in mem.lock.queue
  }

  ghost predicate NotApplied(ap: seq<Entry>, t: TxId) {
    forall i :: 0 <= i < |ap| ==> ap[i].id != t
  }

  /** Steps of coordinators, which change nothing at servers. */
  predicate Remote(a: Action) {
    a.Begin? || a.DoPut? || a.DoDel? || a.FinishGet? || a.StartCommit? || a.Decide? || a.GiveUp? || a.StoreAbort?
  }

  lemma RemoteFrame(s: System, a: Action)
    requires Enabled(s, a) && Remote(a)
    ensures var s' := Apply(s, a);
            s'.places == s.places && s'.down == s.down && s'.applied == s.applied && s'.stores == s.stores
    ensures forall t :: t in s.txs && s.txs[t].phase.Committed? ==>
              t in Apply(s, a).txs && Apply(s, a).txs[t] == s.txs[t]
  {
    if a.Decide? { DecideFrame(s, a.t, a.e); } else { OtherFrame(s, a); }
  }

  lemma DecideFrame(s: System, t: TxId, e: Epoch)
    requires Is(s, t, Preparing)
    ensures var s' := DecideStep(s, t, e);
            s'.places == s.places && s'.down == s.down && s'.applied == s.applied && s'.stores == s.stores
    ensures forall u :: u in s.txs && s.txs[u].phase.Committed? ==>
              u in DecideStep(s, t, e).txs && DecideStep(s, t, e).txs[u] == s.txs[u]
  {
    hide DecideStep;
    DecideTouches(s, t, e);
  }

  lemma OtherFrame(s: System, a: Action)
    requires Enabled(s, a) && Remote(a) && !a.Decide?
    ensures var s' := Apply(s, a);
            s'.places == s.places && s'.down == s.down && s'.applied == s.applied && s'.stores == s.stores
    ensures forall t :: t in s.txs && s.txs[t].phase.Committed? ==>
              t in Apply(s, a).txs && Apply(s, a).txs[t] == s.txs[t]
  {
    hide TakeReply, Overlays.Buffered, Overlays.BufferPut, Overlays.BufferDel, Overlays.PartOf, Records.Get, SetPart;
  }

  /** Requests, votes and releases, which change one lock or record. */
  lemma LockFrame(s: System, a: Action)
    requires Enabled(s, a) && (a.AskGet? || a.AskPrepare? || a.FinishPrepare? || a.RangeAbort?)
    ensures var s' := Apply(s, a); s'.down == s.down && s'.applied == s.applied && s'.stores == s.stores
    ensures forall t :: t in s.txs && s.txs[t].phase.Committed? ==>
              t in Apply(s, a).txs && Apply(s, a).txs[t] == s.txs[t]
    ensures forall t, pl :: t in s.txs && s.txs[t].phase.Committed? && pl in Apply(s, a).places ==>
              pl in s.places && (NotAt(s.places[pl], t) ==> NotAt(Apply(s, a).places[pl], t))
  {
    hide Overlays.Enumerates, Overlays.Buffered;
  }

  lemma LeaderFrame(s: System, a: Action)
    requires Enabled(s, a) && (a.RenewLeaseAt? || a.TakeOver? || a.LoadRange? || a.UnloadRange?)
    ensures var s' := Apply(s, a);
            s.down <= s'.down && s'.applied == s.applied && s'.stores.Keys == s.stores.Keys && s'.txs == s.txs
    ensures forall t, pl :: pl in Apply(s, a).places ==> (pl in s.places ==> NotAt(s.places[pl], t)) ==>
              NotAt(Apply(s, a).places[pl], t)
  {
  }

  /** A commit at some place, by whoever holds its lock. */
  lemma CommitFrame(s: System, u: TxId, q: RangeId, m: nat, logged: bool, t: TxId, r: RangeId)
    requires u in s.txs && s.txs[u].phase.Committed? && Up(s, q, m) && Gone(s, t, r)
    ensures var s' := RangeCommitStep(s, u, q, m, logged);
            && s'.down == s.down && s'.stores.Keys == s.stores.Keys && s'.txs == s.txs
            && r in s'.applied && NotApplied(s'.applied[r], t)
            && forall pl :: pl in s'.places ==> pl in s.places && (NotAt(s.places[pl], t) ==> NotAt(s'.places[pl], t))
  {
    var s', mem := RangeCommitStep(s, u, q, m, logged), s.places[(q, m)];
    CommitNotAt(mem, u, s.txs[u].phase.epoch, t);
    hide Written, Commit, CommitLogFailure;
    if q == r && u == t { assert NotAt(mem, t); }
    assert s'.places == s.places || s'.places == s.places[(q, m) := s'.places[(q, m)]];
    hide RangeCommitStep, NotAt;
  }

  lemma CommitNotAt(mem: Memory, u: TxId, e: Epoch, t: TxId)
    ensures NotAt(mem, t) ==> NotAt(Commit(mem, u, e), t) && NotAt(CommitLogFailure(mem, u, e), t)
  {
  }

  lemma CommitIsStep(s: System, a: Action)
    requires Enabled(s, a) && a.RangeCommit?
    ensures a.t in s.txs && s.txs[a.t].phase.Committed? && Up(s, a.r, a.m)
    ensures Apply(s, a) == RangeCommitStep(s, a.t, a.r, a.m, a.logged)
  {
  }

  lemma GoneStays(s: System, a: Action, t: TxId, r: RangeId)
    requires Weak(s) && Gone(s, t, r) && Enabled(s, a)
    ensures Gone(Apply(s, a), t, r)
  {
    hide Weak, NotAt, NotApplied, Enabled, Apply;
    if Remote(a) { RemoteFrame(s, a); }
    else if a.RangeCommit? { CommitIsStep(s, a); CommitFrame(s, a.t, a.r, a.m, a.logged, t, r); }
    else if a.RenewLeaseAt? || a.TakeOver? || a.LoadRange? || a.UnloadRange? { LeaderFrame(s, a); }
    else { LockFrame(s, a); }
  }

  lemma {:induction false} GoneForever(s: System, acts: seq<Action>, t: TxId, r: RangeId)
    requires Weak(s) && Gone(s, t, r) && IsRun(s, acts)
    ensures Gone(After(s, acts), t, r)
    decreases |acts|
  {
    hide Weak, Gone;
    if acts != [] {
      GoneStays(s, acts[0], t, r);
      StepWeak(s, acts[0]);
      GoneForever(Apply(s, acts[0]), acts[1..], t, r);
    }
  }

  lemma LostForGood(s: System, t: TxId, r: RangeId, more: seq<Action>)
    requires Weak(s) && IsCommitted(s.txs, t, r) && !IsApplied(s, t, r) && r in s.txs[t].asked
    requires (r, s.txs[t].asked[r]) in s.places && (r, s.txs[t].asked[r]) in s.down && IsRun(s, more)
    requires IsCommitted(After(s, more).txs, t, r)
    ensures !IsApplied(After(s, more), t, r)
  {
    hide Weak, Gone;
    DownIsGone(s, t, r);
    GoneForever(s, more, t, r);
    hide IsRun, After;
    GoneMeans(After(s, more), t, r);
  }

  /**
   * Whenever a server unloads a range on which a decided commit has not been applied yet, although it voted
   * there, that transaction's writes never reach the range, whatever happens later: every other server finds
   * the lock not held and reports success.
   */
  lemma UnloadDropsCommit(s: System, t: TxId, pl: Place, more: seq<Action>)
    requires Weak(s) && Up(s, pl.0, pl.1) && IsCommitted(s.txs, t, pl.0) && !IsApplied(s, t, pl.0)
    requires pl.0 in s.txs[t].asked && s.txs[t].asked[pl.0] == pl.1 && IsRun(Unloading(s, pl), more)
    ensures var s' := After(Unloading(s, pl), more); IsCommitted(s'.txs, t, pl.0) ==> !IsApplied(s', t, pl.0)
  {
    hide Weak, IsRun, After;
    UnloadKeeps(s, pl.0, pl.1);
    var s1 := Unloading(s, pl);
    if IsCommitted(After(s1, more).txs, t, pl.0) { LostForGood(s1, t, pl.0, more); }
  }

  lemma GoneMeans(s: System, t: TxId, r: RangeId)
    requires Gone(s, t, r) && IsCommitted(s.txs, t, r)
    ensures !IsApplied(s, t, r)
  {
  }

  lemma DownIsGone(s: System, t: TxId, r: RangeId)
    requires Weak(s) && IsCommitted(s.txs, t, r) && !IsApplied(s, t, r) && r in s.txs[t].asked
    requires (r, s.txs[t].asked[r]) in s.places && (r, s.txs[t].asked[r]) in s.down
    ensures Gone(s, t, r)
  {
    hide Weak;
    PlaceKnown(s, (r, s.txs[t].asked[r]));
    forall q | q in s.places && q.0 == r && q !in s.down ensures NotAt(s.places[q], t) {
      TermAt(s, t, q);
    }
    forall i | 0 <= i < |s.applied[r]| ensures s.applied[r][i].id != t { AppliedIsListed(s, t, r, i); }
  }

  lemma AppliedIsListed(s: System, t: TxId, r: RangeId, i: nat)
    requires Weak(s) && IsCommitted(s.txs, t, r) && r in s.applied && i < |s.applied[r]|
    ensures s.applied[r][i].id == t ==> IsApplied(s, t, r)
  {
    hide PlacesOk, TxOk, SentOk, Known, TermOk, Released;
    assert AppliedOk(s.history, r, s.applied[r]);
    var x := s.applied[r][i];
    var j :| 0 <= j < |s.history| && s.history[j] == x;
    assert Listed(s.txs, s.history[j]);
  }

  lemma ReleasedAt(s: System, pl: Place)
    requires Weak(s) && pl in s.places
    ensures pl.0 in s.applied && Released(s.places[pl], s.applied[pl.0])
  {
    hide PlacesOk, TxOk, SentOk, Known, TermOk, HistoryOk, AppliedOk;
  }
}
