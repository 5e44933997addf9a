/**
 * Aborts that are processed while their transaction waits for the lock: they have no effect, and the
 * transaction can still be handed the lock, which nobody then gives back.
 */
module AbortedWaiters {
  import opened Base
  import opened Ranges
  import opened Protocol
  import opened ProtocolLocks
  import opened ProtocolEffects
  import opened ProtocolRuns
  import opened ReplacedLeaders
  import Locking
  import Overlays
  import Records
  import Decisions

  const DELETER: Overlays.Participant := Overlays.Participant({}, map[], {X}, Overlays.UNSET_LEADER)
  const ASKED: Coord := Coord(Preparing, None, map[R := 1], map[], map[R := DELETER])

  /** A second transaction buffers a delete and starts to commit, while the first one holds the lock. */
  const STARTED: System := With(READ_ONE, ASKED.(asked := map[]), FIRST.(lock := Locking.Lock(Some(1), [])))
  const WAITING: System := With(READ_ONE, ASKED, FIRST.(lock := Locking.Lock(Some(1), [2])))
  const GIVEN_UP: System := With(READ_ONE, ASKED.(phase := Aborted), FIRST.(lock := Locking.Lock(Some(1), [2])))

  function With(s: System, c: Coord, mem: Memory): System {
    s.(txs := s.txs[2 := c], rows := s.rows[2 := Decisions.Started], places := s.places[(R, 1) := mem])
  }

  lemma StartSecond() returns (acts: seq<Action>)
    ensures Leads(START, acts, STARTED)
  {
    Nowhere(START);
    acts := ReadRun(START, [], START, 1, R, 1, Z);
    hide Leads;
    var s1 := AfterBegin(READ_ONE, 2);
    var running := ASKED.(phase := Running, asked := map[]);
    var s2 := s1.(txs := s1.txs[2 := running]);
    assert Overlays.BufferDel(Overlays.FRESH, X) == DELETER;
    assert SetPart(NEW_COORD, R, DELETER) == running;
    Then(START, acts, READ_ONE, Begin(2), s1);
    Then(START, acts + [Begin(2)], s1, DoDel(2, R, X), s2);
    StartsCommit(s2, running);
    Then(START, acts + [Begin(2)] + [DoDel(2, R, X)], s2, StartCommit(2), STARTED);
    acts := acts + [Begin(2)] + [DoDel(2, R, X)] + [StartCommit(2)];
  }

  lemma StartsCommit(s: System, running: Coord)
    requires running == ASKED.(phase := Running, asked := map[])
    requires s == AfterBegin(READ_ONE, 2).(txs := AfterBegin(READ_ONE, 2).txs[2 := running])
    ensures Enabled(s, StartCommit(2)) && Apply(s, StartCommit(2)) == STARTED
  {
    var s' := Apply(s, StartCommit(2));
    assert s'.txs == STARTED.txs;
    assert s'.places == STARTED.places;
  }

  lemma Waits()
    ensures Enabled(STARTED, AskPrepare(2, R, 1)) && Apply(STARTED, AskPrepare(2, R, 1)) == WAITING
  {
    var mem := FIRST.(lock := Locking.Lock(Some(1), []));
    assert [] + [2] == [2];
    assert Request(mem, 2) == FIRST.(lock := Locking.Lock(Some(1), [2]));
    assert Apply(STARTED, AskPrepare(2, R, 1)).txs == WAITING.txs;
    assert Apply(STARTED, AskPrepare(2, R, 1)).places == WAITING.places;
  }

  lemma GivesUp()
    ensures Enabled(WAITING, GiveUp(2)) && Apply(WAITING, GiveUp(2)) == GIVEN_UP
  {
    assert Apply(WAITING, GiveUp(2)).txs == GIVEN_UP.txs;
  }

  /** Its abort finds it waiting, and is ignored. */
  lemma Ignored()
    ensures Enabled(GIVEN_UP, RangeAbort(2, R, 1)) && Apply(GIVEN_UP, RangeAbort(2, R, 1)) == GIVEN_UP
  {
    assert Apply(GIVEN_UP, RangeAbort(2, R, 1)).places == GIVEN_UP.places;
  }

  /** The first transaction gives up as well, and its abort hands over the lock. */
  lemma HandsOver() returns (s: System)
    ensures Enabled(GIVEN_UP, GiveUp(1)) && Apply(GIVEN_UP, GiveUp(1)) == s
    ensures Enabled(s, RangeAbort(1, R, 1))
    ensures var s' := Apply(s, RangeAbort(1, R, 1));
            Is(s', 2, Aborted) && (R, 1) in s'.places && Holds(s'.places[(R, 1)], 2)
  {
    s := Apply(GIVEN_UP, GiveUp(1));
    assert s.txs == GIVEN_UP.txs[1 := GIVEN_UP.txs[1].(phase := Aborted)];
  }

  /**
   * The abort is processed where the transaction waits, without effect; later it is handed the lock, aborted
   * as it is.
   */
  lemma AbortedWaiterTakesLock() returns (acts: seq<Action>, s: System, more: seq<Action>, s': System)
    ensures Initial(START) && Leads(START, acts, s)
    ensures Enabled(s, RangeAbort(2, R, 1)) && Apply(s, RangeAbort(2, R, 1)) == s
    ensures Leads(s, more, s') && Is(s', 2, Aborted) && (R, 1) in s'.places && Holds(s'.places[(R, 1)], 2)
  {
    StartIsInitial();
    acts := StartSecond();
    hide Leads, Apply, Enabled, Initial, With;
    Waits();
    GivesUp();
    Ignored();
    Nowhere(GIVEN_UP);
    Then(START, acts, STARTED, AskPrepare(2, R, 1), WAITING);
    Then(START, acts + [AskPrepare(2, R, 1)], WAITING, GiveUp(2), GIVEN_UP);
    acts, s := acts + [AskPrepare(2, R, 1)] + [GiveUp(2)], GIVEN_UP;
    var s1 := HandsOver();
    s' := Apply(s1, RangeAbort(1, R, 1));
    Then(s, [], s, GiveUp(1), s1);
    Then(s, [] + [GiveUp(1)], s1, RangeAbort(1, R, 1), s');
    more := [] + [GiveUp(1)] + [RangeAbort(1, R, 1)];
  }

  // ---------------------------------------------------------------- every waiter can be handed the lock

  ghost predicate Reaches(s: System, acts: seq<Action>, s': System) {
    IsRun(s, acts) && After(s, acts) == s'
  }

  lemma Here(s: System)
    ensures Reaches(s, [], s)
  {
  }

  lemma {:induction false} ThenStep(s: System, acts: seq<Action>, s1: System, a: Action)
    requires Reaches(s, acts, s1) && Enabled(s1, a)
    ensures Reaches(s, acts + [a], Apply(s1, a))
    decreases |acts|
  {
    hide Enabled, Apply;
    var all := acts + [a];
    if acts == [] {
      assert s1 == s && all[0] == a && all[1..] == [];
      Here(Apply(s, a));
    } else {
      ThenStep(Apply(s, acts[0]), acts[1..], s1, a);
      assert all[0] == acts[0] && all[1..] == acts[1..] + [a];
    }
  }

  lemma {:induction false} LongKey(ks: set<Bytes>) returns (n: nat)
    ensures forall k :: k in ks ==> |k| < n
    decreases |ks|
  {
    n := 0;
    if ks != {} {
      var k :| k in ks;
      n := LongKey(ks - {k});
      if n <= |k| { n := |k| + 1; }
    }
  }

  lemma FreshKey(p: Overlays.Participant) returns (k: Bytes)
    ensures !Overlays.Buffered(p, k)
  {
    var n := LongKey(p.writeset.Keys + p.deleteset);
    k := seq(n, i => 0);
    assert |k| == n;
  }

  /** The holder of the lock of a place, which is up, does not wait for another lock. */
  ghost predicate Unblocked(s: System, pl: Place, h: TxId) {
    && Weak(s) && Up(s, pl.0, pl.1) && Holds(s.places[pl], h) && h in s.txs && pl.0 in s.txs[h].parts
    && (s.txs[h].phase.Running? ==> s.txs[h].waitingOn == None || s.txs[h].waitingOn == Some(pl))
  }

  ghost predicate SameLock(s: System, s': System, pl: Place) {
    s'.places == s.places && s'.stores == s.stores && s'.down == s.down && s'.applied == s.applied
  }

  /** A holder that waits for nothing else can be brought to an end. */
  lemma FinishRead(s: System, pl: Place, h: TxId) returns (a: Action)
    requires Unblocked(s, pl, h) && s.txs[h].phase.Running? && s.txs[h].waitingOn == Some(pl)
    ensures Enabled(s, a)
    ensures var s' := Apply(s, a);
            && Weak(s') && SameLock(s, s', pl) && Unblocked(s', pl, h)
            && (Is(s', h, Aborted) || Idle(s', h))
  {
    hide Weak, Overlays.Buffered, Records.Get;
    var k := FreshKey(Overlays.PartOf(s.txs[h].parts, pl.0));
    a := FinishGet(h, pl.0, pl.1, k);
    assert Enabled(s, a);
    StepWeak(s, a);
    var s' := Apply(s, a);
    assert s' == s.(txs := s.txs[h := s'.txs[h]]);
  }

  lemma GiveUpStep(s: System, pl: Place, h: TxId)
    requires Unblocked(s, pl, h) && (Idle(s, h) || Is(s, h, Preparing))
    ensures Enabled(s, GiveUp(h))
    ensures var s' := Apply(s, GiveUp(h)); SameLock(s, s', pl) && Unblocked(s', pl, h) && Is(s', h, Aborted)
  {
    hide Weak;
    StepWeak(s, GiveUp(h));
  }

  lemma EndHolder(s: System, pl: Place, h: TxId) returns (acts: seq<Action>, s': System)
    requires Unblocked(s, pl, h)
    ensures Reaches(s, acts, s') && SameLock(s, s', pl) && Unblocked(s', pl, h)
    ensures s'.txs[h].phase.Aborted? || s'.txs[h].phase.Committed?
  {
    hide Reaches, Enabled, Apply, Weak, Holds;
    Here(s);
    acts, s' := [], s;
    if s'.txs[h].phase.Running? && s'.txs[h].waitingOn != None {
      var a := FinishRead(s', pl, h);
      ThenStep(s, acts, s', a);
      acts, s' := acts + [a], Apply(s', a);
    }
    if !s'.txs[h].phase.Aborted? && !s'.txs[h].phase.Committed? {
      GiveUpStep(s', pl, h);
      ThenStep(s, acts, s', GiveUp(h));
      acts, s' := acts + [GiveUp(h)], Apply(s', GiveUp(h));
    }
  }

  /** Then its abort or commit hands the lock to the next one. */
  lemma LetGo(s: System, pl: Place, h: TxId) returns (a: Action)
    requires Unblocked(s, pl, h) && (s.txs[h].phase.Aborted? || s.txs[h].phase.Committed?)
    ensures Enabled(s, a)
    ensures var s' := Apply(s, a);
            && Weak(s') && Up(s', pl.0, pl.1) && s'.places[pl].lock == Locking.Release(s.places[pl].lock)
            && s'.txs == s.txs
  {
    hide Weak, Locking.Release, Written;
    if s.txs[h].phase.Aborted? {
      a := RangeAbort(h, pl.0, pl.1);
      assert Apply(s, a) == SetMemory(s, pl, s.places[pl].(lock := Locking.Release(s.places[pl].lock)));
    } else {
      a := RangeCommit(h, pl.0, pl.1, true);
      assert Apply(s, a) == RangeCommitStep(s, h, pl.0, pl.1, true);
    }
    StepWeak(s, a);
  }

  lemma NextUnblocked(s: System, pl: Place)
    requires Weak(s) && Up(s, pl.0, pl.1) && s.places[pl].lock.queue != []
    ensures var u := s.places[pl].lock.queue[0];
            u in s.txs && pl.0 in s.txs[u].parts && (s.txs[u].phase.Running? ==> s.txs[u].waitingOn == Some(pl))
  {
    hide PlacesOk, TxOk, SentOk, HistoryOk, AppliedOk, Released;
    var u := s.places[pl].lock.queue[0];
    assert u in s.places[pl].lock.queue;
    assert Known(s.txs, pl, s.places[pl]);
    assert TermOk(s.txs[u], u, pl, s.places[pl]);
  }

  /**
   * From every reachable state: whoever waits for the lock of a loaded place, aborted or not, is handed it in
   * some continuation, as long as the present holder does not itself wait for another lock.
   */
  lemma {:induction false} WaiterIsHandedLock(s: System, pl: Place, h: TxId, i: nat)
    returns (acts: seq<Action>, s': System)
    requires Unblocked(s, pl, h) && i < |s.places[pl].lock.queue|
    ensures Reaches(s, acts, s') && pl in s'.places && Holds(s'.places[pl], s.places[pl].lock.queue[i])
    decreases i
  {
    hide Weak, Reaches, Enabled, Apply;
    var q := s.places[pl].lock.queue;
    var s1: System;
    acts, s1 := EndHolder(s, pl, h);
    NextUnblocked(s1, pl);
    var a := LetGo(s1, pl, h);
    ThenStep(s, acts, s1, a);
    acts, s' := acts + [a], Apply(s1, a);
    if i > 0 {
      var more, s2 := WaiterIsHandedLock(s', pl, q[0], i - 1);
      Joined(s, acts, s', more, s2);
      acts, s' := acts + more, s2;
    }
  }

  lemma {:induction false} Joined(s: System, acts: seq<Action>, s1: System, more: seq<Action>, s2: System)
    requires Reaches(s, acts, s1) && Reaches(s1, more, s2)
    ensures Reaches(s, acts + more, s2)
    decreases |acts|
  {
    hide Enabled, Apply;
    if acts == [] {
      assert acts + more == more;
    } else {
      Joined(Apply(s, acts[0]), acts[1..], s1, more, s2);
      assert (acts + more)[1..] == acts[1..] + more;
    }
  }

  /**
   * Over every run: after its abort has been processed at a place, a transaction can come to hold the lock
   * there if and only if it was waiting for it, given that the holder does not itself wait for another lock.
   */
  lemma AbortForGoodIff(s: System, acts: seq<Action>, t: TxId, r: RangeId, m: nat)
    requires Initial(s) && IsRun(s, acts) && Enabled(After(s, acts), RangeAbort(t, r, m))
    requires var s1 := After(s, acts);
             forall h :: Holds(s1.places[(r, m)], h) && Is(s1, h, Running) ==>
               s1.txs[h].waitingOn == None || s1.txs[h].waitingOn == Some((r, m))
    ensures var s2 := Apply(After(s, acts), RangeAbort(t, r, m));
            t in After(s, acts).places[(r, m)].lock.queue <==>
            exists more, s3 :: Reaches(s2, more, s3) && (r, m) in s3.places && Holds(s3.places[(r, m)], t)
  {
    var s1 := After(s, acts);
    var s2 := Apply(s1, RangeAbort(t, r, m));
    if t in s1.places[(r, m)].lock.queue {
      hide Weak;
      InitialWeak(s);
      RunWeak(s, acts);
      hide Initial, IsRun, After, Reaches;
      var more, s3 := QueuedIsHandedLock(s1, t, r, m);
    } else {
      forall more, s3 | Reaches(s2, more, s3) ensures !((r, m) in s3.places && Holds(s3.places[(r, m)], t)) {
        AbortIsForGood(s, acts, t, r, m, more);
      }
    }
  }

  lemma QueuedIsHandedLock(s: System, t: TxId, r: RangeId, m: nat) returns (acts: seq<Action>, s': System)
    requires Weak(s) && Enabled(s, RangeAbort(t, r, m)) && t in s.places[(r, m)].lock.queue
    requires forall h :: Holds(s.places[(r, m)], h) && Is(s, h, Running) ==>
               s.txs[h].waitingOn == None || s.txs[h].waitingOn == Some((r, m))
    ensures Reaches(Apply(s, RangeAbort(t, r, m)), acts, s')
    ensures (r, m) in s'.places && Holds(s'.places[(r, m)], t)
  {
    hide Weak, Reaches, Apply;
    var pl := (r, m);
    QueueHasHolder(s, pl, t);
    AbortIgnored(s, t, r, m);
    var i :| 0 <= i < |s.places[pl].lock.queue| && s.places[pl].lock.queue[i] == t;
    acts, s' := WaiterIsHandedLock(s, pl, s.places[pl].lock.holder.value, i);
  }

  lemma QueueHasHolder(s: System, pl: Place, t: TxId)
    requires Weak(s) && pl in s.places && t in s.places[pl].lock.queue
    ensures s.places[pl].lock.holder.Some? && s.places[pl].lock.holder != Some(t)
    ensures var h := s.places[pl].lock.holder.value; h in s.txs && pl.0 in s.txs[h].parts
  {
    hide Weak;
    PlaceShape(s, pl);
    KnownAt(s, pl);
  }

  lemma KnownAt(s: System, pl: Place)
    requires Weak(s) && pl in s.places
    ensures Known(s.txs, pl, s.places[pl])
  {
    hide PlacesOk, TxOk, SentOk, TermOk, HistoryOk, AppliedOk, Released, Known;
  }

  lemma AbortIgnored(s: System, t: TxId, r: RangeId, m: nat)
    requires Enabled(s, RangeAbort(t, r, m)) && !Holds(s.places[(r, m)], t)
    ensures Apply(s, RangeAbort(t, r, m)) == s
  {
    assert Apply(s, RangeAbort(t, r, m)).places == s.places;
  }
}
