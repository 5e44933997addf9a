/** The one exclusive, wait-die ordered lock of a range (rangeserver/src/range_manager/lock_table.rs). */
module Locking {
  import opened Base

  datatype Lock = Lock(holder: Option<TxId>, queue: seq<TxId>)

  datatype Outcome = Granted | Waiting | WaitDie

  const FREE: Lock := Lock(None, [])

  /** The youngest transaction known to the lock: the back of the queue, or the holder. */
  function HighestWaiter(l: Lock): TxId
    requires l.holder.Some?
  {
    if l.queue == [] then l.holder.value else l.queue[|l.queue| - 1]
  }

  function AcquireOutcome(l: Lock, t: TxId): Outcome {
    if l.holder.None? || l.holder.value == t then Granted
    else if HighestWaiter(l) > t then WaitDie
    else Waiting
  }

  function Acquire(l: Lock, t: TxId): Lock {
    match AcquireOutcome(l, t)
    case Granted => l.(holder := Some(t))
    case Waiting => l.(queue := l.queue + [t])
    case WaitDie => l
  }

  function Release(l: Lock): Lock {
    if l.queue == [] then FREE else Lock(Some(l.queue[0]), l.queue[1..])
  }

  /** Everyone waiting is younger than everyone ahead of it, and a free lock has no queue. */
  ghost predicate Ordered(l: Lock) {
    && (l.holder.None? ==> l.queue == [])
    && (l.holder.Some? ==> forall i :: 0 <= i < |l.queue| ==> l.holder.value < l.queue[i])
    && forall i, j :: 0 <= i < j < |l.queue| ==> l.queue[i] < l.queue[j]
  }

  /** The transactions that hold the lock or wait for it. */
  function Known(l: Lock): set<TxId> {
    (if l.holder.Some? then {l.holder.value} else {}) + set t | t in l.queue
  }

  /**
   * Wait-die: a request for a lock that is free or its own is granted, one for a lock that anybody
   * younger holds or waits for dies, and every other one waits.
   */
  lemma OutcomeByAge(l: Lock, t: TxId)
    requires Ordered(l)
    ensures AcquireOutcome(l, t) == Granted <==> l.holder == None || l.holder == Some(t)
    ensures AcquireOutcome(l, t) == WaitDie <==> l.holder != Some(t) && exists u :: u in Known(l) && u > t
    ensures AcquireOutcome(l, t) == Waiting <==>
              l.holder != None && l.holder != Some(t) && forall u :: u in Known(l) ==> u <= t
  {
    if l.holder.Some? {
      var last := HighestWaiter(l);
      assert last in Known(l);
      forall u | u in Known(l) ensures u <= last {
        if u in l.queue {
          var i :| 0 <= i < |l.queue| && l.queue[i] == u;
        }
      }
    }
  }

  /** Nobody loses a place to a request, and whoever is made to wait comes last. */
  lemma AcquireKeepsPlaces(l: Lock, t: TxId)
    ensures var l' := Acquire(l, t);
            && l.queue <= l'.queue && (l.holder.Some? ==> l'.holder == l.holder)
            && (AcquireOutcome(l, t) == Waiting ==> |l'.queue| == |l.queue| + 1 && l'.queue[|l.queue|] == t)
            && (AcquireOutcome(l, t) != Waiting ==> l'.queue == l.queue)
            && (AcquireOutcome(l, t) == Granted <==> l'.holder == Some(t))
            && Known(l') == if AcquireOutcome(l, t) == WaitDie then Known(l) else Known(l) + {t}
  {
    var l' := Acquire(l, t);
    forall u ensures u in Known(l') <==> u in Known(l) || (u == t && AcquireOutcome(l, t) != WaitDie) {
      assert u in l.queue + [t] <==> u in l.queue || u == t;
    }
  }

  /** A release hands the lock to the first waiter, or to nobody; the rest stay in order and the holder is gone. */
  lemma ReleaseHandsOver(l: Lock)
    requires Ordered(l)
    ensures var l' := Release(l);
            && (l.queue == [] ==> l'.holder == None && l'.queue == [])
            && (l.queue != [] ==> l'.holder == Some(l.queue[0]) && [l.queue[0]] + l'.queue == l.queue)
            && Known(l') == Known(l) - (if l.holder.Some? then {l.holder.value} else {})
  {
    var l' := Release(l);
    if l.queue != [] {
      assert l.queue == [l.queue[0]] + l.queue[1..];
      forall u ensures u in Known(l') <==> u in l.queue {
        assert u in l.queue <==> u == l.queue[0] || u in l.queue[1..];
      }
      assert l.holder.value !in l.queue;
    }
  }

  ghost predicate Increasing(q: seq<TxId>) {
    forall i, j :: 0 <= i < j < |q| ==> q[i] < q[j]
  }

  lemma {:induction false} IncreasingSame(a: seq<TxId>, b: seq<TxId>)
    requires Increasing(a) && Increasing(b) && forall t :: t in a <==> t in b
    ensures a == b
    decreases |a|
  {
    assert b != [] ==> b[0] in b;
    if a != [] {
      assert a[0] in b && b[0] in a;
      assert a[0] == b[0];
      forall t ensures t in a[1..] <==> t in b[1..] {
        assert t in a[1..] <==> t in a && t != a[0];
        assert t in b[1..] <==> t in b && t != b[0];
      }
      IncreasingSame(a[1..], b[1..]);
      assert a == [a[0]] + a[1..] && b == [b[0]] + b[1..];
    }
  }

  function Line(l: Lock): seq<TxId> {
    (if l.holder.Some? then [l.holder.value] else []) + l.queue
  }

  /** An ordered lock is nothing but the set of those who hold it or wait for it: the oldest of them holds it. */
  lemma KnownDecides(l: Lock, l': Lock)
    requires Ordered(l) && Ordered(l') && Known(l) == Known(l')
    ensures l == l'
  {
    forall t ensures t in Line(l) <==> t in Line(l') {
      assert t in Line(l) <==> t in Known(l);
      assert t in Line(l') <==> t in Known(l');
    }
    IncreasingSame(Line(l), Line(l'));
    assert l.holder.None? <==> Line(l) == [];
    assert l.holder.Some? ==> l.queue == Line(l)[1..] && l'.queue == Line(l')[1..];
  }

  /** A second request by the transaction already at the back of the queue. */
  predicate Resubmits(l: Lock, t: TxId) {
    l.queue != [] && l.queue[|l.queue| - 1] == t
  }

  /**
   * Acquiring keeps the lock ordered exactly when the request is not a resubmission: the wait-die
   * test compares with ">" and so lets the last waiter queue behind itself.
   */
  lemma AcquireKeepsOrder(l: Lock, t: TxId)
    requires Ordered(l)
    ensures Ordered(Acquire(l, t)) <==> !Resubmits(l, t)
  {
    var l' := Acquire(l, t);
    if Resubmits(l, t) {
      var n := |l.queue|;
      assert l'.queue[n - 1] == l'.queue[n];
    }
  }

  lemma ReleaseKeepsOrder(l: Lock)
    requires Ordered(l)
    ensures Ordered(Release(l))
  {
    if l.queue != [] {
      assert forall i :: 0 <= i < |l.queue[1..]| ==> l.queue[1..][i] == l.queue[i + 1];
    }
  }

  /** A resubmitted request leaves the transaction waiting for itself once it is granted. */
  lemma ResubmissionSelfDeadlock(t: TxId, u: TxId)
    requires t < u
    ensures var l := Lock(Some(t), [u]);
            var l' := Release(Acquire(l, u));
            Ordered(l) && Resubmits(l, u) && l' == Lock(Some(u), [u])
  {
    assert ([u] + [u])[1..] == [u];
  }

  // ---------------------------------------------------------------- runs of one lock

  datatype Op = Ask(t: TxId) | Free

  function Step(l: Lock, op: Op): Lock {
    match op
    case Ask(t) => Acquire(l, t)
    case Free => Release(l)
  }

  function Run(l: Lock, ops: seq<Op>): Lock
    decreases |ops|
  {
    if ops == [] then l else Run(Step(l, ops[0]), ops[1..])
  }

  function Frees(ops: seq<Op>): nat
    decreases |ops|
  {
    if ops == [] then 0 else (if ops[0].Free? then 1 else 0) + Frees(ops[1..])
  }

  /** No request of the run is a resubmission. */
  ghost predicate Distinct(l: Lock, ops: seq<Op>)
    decreases |ops|
  {
    ops == [] || ((ops[0].Ask? ==> !Resubmits(l, ops[0].t)) && Distinct(Step(l, ops[0]), ops[1..]))
  }

  lemma {:induction false} RunKeepsOrder(l: Lock, ops: seq<Op>)
    requires Ordered(l) && Distinct(l, ops)
    ensures Ordered(Run(l, ops))
    decreases |ops|
  {
    if ops != [] {
      match ops[0]
      case Ask(t) => AcquireKeepsOrder(l, t); RunKeepsOrder(Step(l, ops[0]), ops[1..]);
      case Free => ReleaseKeepsOrder(l); RunKeepsOrder(Step(l, ops[0]), ops[1..]);
    }
  }

  lemma {:induction false} HolderStays(l: Lock, ops: seq<Op>)
    requires l.holder.Some? && Frees(ops) == 0
    ensures Run(l, ops).holder == l.holder
    decreases |ops|
  {
    if ops != [] {
      HolderStays(Step(l, ops[0]), ops[1..]);
    }
  }

  lemma AskKeepsPlace(l: Lock, t: TxId, i: nat)
    requires Ordered(l) && i < |l.queue| && !Resubmits(l, t)
    ensures var l' := Acquire(l, t); Ordered(l') && i < |l'.queue| && l'.queue[i] == l.queue[i]
  {
    AcquireKeepsOrder(l, t);
  }

  lemma FreeMovesUp(l: Lock, i: nat)
    requires Ordered(l) && i < |l.queue|
    ensures var l' := Release(l);
            Ordered(l')
            && (if i == 0 then l'.holder == Some(l.queue[0]) else i - 1 < |l'.queue| && l'.queue[i - 1] == l.queue[i])
  {
    ReleaseKeepsOrder(l);
  }

  /**
   * No overtaking: whatever requests arrive meanwhile, a waiter at position i moves up by exactly one
   * per release, does not hold the lock before the (i+1)-th release, and holds it right after.
   */
  lemma {:induction false} GrantedAfterReleases(l: Lock, i: nat, ops: seq<Op>)
    requires Ordered(l) && Distinct(l, ops) && i < |l.queue| && Frees(ops) <= i + 1
    ensures var l' := Run(l, ops);
            if Frees(ops) == i + 1 then l'.holder == Some(l.queue[i])
            else i - Frees(ops) < |l'.queue| && l'.queue[i - Frees(ops)] == l.queue[i] && l'.holder != Some(l.queue[i])
    decreases |ops|
  {
    if ops == [] {
      assert l.holder.Some?;
    } else {
      hide Ordered, Acquire, Release, Resubmits;
      var l1 := Step(l, ops[0]);
      if ops[0].Ask? {
        AskKeepsPlace(l, ops[0].t, i);
        GrantedAfterReleases(l1, i, ops[1..]);
      } else {
        FreeMovesUp(l, i);
        if i == 0 {
          HolderStays(l1, ops[1..]);
        } else {
          GrantedAfterReleases(l1, i - 1, ops[1..]);
        }
      }
    }
  }

  // ---------------------------------------------------------------- the locks of all ranges together

  /** The locks of any number of places: a range served under several leader numbers has one for each. */
  type Locks<!K> = map<K, Lock>

  /** t waits behind u at range r: u holds the lock or is ahead of t in the queue. */
  ghost predicate WaitsAt(l: Lock, t: TxId, u: TxId) {
    exists i :: 0 <= i < |l.queue| && l.queue[i] == t && (l.holder == Some(u) || u in l.queue[..i])
  }

  ghost predicate WaitsOn<K>(locks: Locks<K>, t: TxId, u: TxId) {
    exists r :: r in locks && WaitsAt(locks[r], t, u)
  }

  /** A chain of transactions each of which waits for the next one, at whatever range. */
  ghost predicate WaitChain<K>(locks: Locks<K>, chain: seq<TxId>) {
    forall i :: 0 <= i < |chain| - 1 ==> WaitsOn(locks, chain[i], chain[i + 1])
  }

  ghost predicate AllOrdered<K>(locks: Locks<K>) {
    forall r :: r in locks ==> Ordered(locks[r])
  }

  lemma WaitsAreDownward(l: Lock, t: TxId, u: TxId)
    requires Ordered(l) && WaitsAt(l, t, u)
    ensures u < t
  {
    var i :| 0 <= i < |l.queue| && l.queue[i] == t && (l.holder == Some(u) || u in l.queue[..i]);
    if u in l.queue[..i] {
      var j :| 0 <= j < i && l.queue[..i][j] == u;
      assert l.queue[j] == u;
    }
  }

  /** The global waits-for graph has no cycle: ids strictly decrease along every chain, across ranges. */
  lemma {:induction false} NoWaitCycle<K>(locks: Locks<K>, chain: seq<TxId>)
    requires AllOrdered(locks) && WaitChain(locks, chain) && |chain| >= 2
    ensures chain[|chain| - 1] < chain[0]
    decreases |chain|
  {
    assert WaitsOn(locks, chain[0], chain[0 + 1]);
    var r :| r in locks && WaitsAt(locks[r], chain[0], chain[1]);
    WaitsAreDownward(locks[r], chain[0], chain[1]);
    if |chain| > 2 {
      var rest := chain[1..];
      forall i | 0 <= i < |rest| - 1 ensures WaitsOn(locks, rest[i], rest[i + 1]) {
        assert WaitsOn(locks, chain[i + 1], chain[i + 2]);
      }
      NoWaitCycle(locks, rest);
    }
  }

  lemma AcquireKeepsOrderIf(l: Lock, t: TxId)
    ensures Ordered(l) && !Resubmits(l, t) ==> Ordered(Acquire(l, t))
  {
    if Ordered(l) { AcquireKeepsOrder(l, t); }
  }
}

/** The lock table as the range manager uses it. */
module LockTables {
  import opened Base
  import Locking

  class LockTable {
    var currentHolder: Option<TxId>
    var waitingForRelease: seq<TxId>
    var waitingToAcquire: seq<TxId>

    ghost function View(): Locking.Lock
      reads this
    {
      Locking.Lock(currentHolder, waitingToAcquire)
    }

    /** Someone waits for a release only while there is a holder to wait for. */
    ghost predicate Awaited()
      reads this
    {
      currentHolder.None? ==> waitingForRelease == []
    }

    constructor ()
      ensures View() == Locking.FREE && waitingForRelease == []
    {
      currentHolder := None;
      waitingForRelease := [];
      waitingToAcquire := [];
    }

    /** Returns at once if the lock is free; otherwise the caller hears of the next release. */
    method MaybeWaitForCurrentHolder(t: TxId) returns (waits: bool)
      modifies this
      ensures View() == old(View()) && (waits <==> currentHolder.Some?)
      ensures waitingForRelease == if waits then old(waitingForRelease) + [t] else old(waitingForRelease)
      ensures old(Awaited()) ==> Awaited()
    {
      match currentHolder {
        case None => waits := false;
        case Some(_) =>
          waitingForRelease := waitingForRelease + [t];
          waits := true;
      }
    }

    /** Granted at once, queued (the caller waits for its turn), or rejected by the wait-die rule. */
    method Acquire(t: TxId) returns (outcome: Locking.Outcome)
      modifies this
      ensures outcome == Locking.AcquireOutcome(old(View()), t)
      ensures View() == Locking.Acquire(old(View()), t)
      ensures outcome.Granted? <==> currentHolder == Some(t)
      ensures old(Locking.Ordered(View())) && old(currentHolder) != None && old(currentHolder) != Some(t) ==>
                (outcome.WaitDie? <==> exists u :: u in old(Locking.Known(View())) && u > t)
      ensures waitingToAcquire == if outcome.Waiting? then old(waitingToAcquire) + [t] else old(waitingToAcquire)
      ensures waitingForRelease == old(waitingForRelease) && (old(Awaited()) ==> Awaited())
      ensures old(Locking.Ordered(View())) && !old(Locking.Resubmits(View(), t)) ==> Locking.Ordered(View())
    {
      Locking.AcquireKeepsOrderIf(View(), t);
      if Locking.Ordered(View()) { Locking.OutcomeByAge(View(), t); }
      match currentHolder {
        case None =>
          currentHolder := Some(t);
          outcome := Locking.Granted;
        case Some(current) =>
          if current == t {
            outcome := Locking.Granted;
          } else {
            var highestWaiter := if |waitingToAcquire| == 0 then current else waitingToAcquire[|waitingToAcquire| - 1];
            if highestWaiter > t {
              outcome := Locking.WaitDie;
            } else {
              waitingToAcquire := waitingToAcquire + [t];
              outcome := Locking.Waiting;
            }
          }
      }
    }

    /** Tells all who wait for a release, in order, then hands the lock to the first in the queue, whoever held it. */
    method Release() returns (notified: seq<TxId>)
      modifies this
      ensures View() == Locking.Release(old(View()))
      ensures old(waitingToAcquire) == [] ==> currentHolder == None && waitingToAcquire == []
      ensures old(waitingToAcquire) != [] ==>
                currentHolder == Some(old(waitingToAcquire)[0]) && waitingToAcquire == old(waitingToAcquire)[1..]
      ensures notified == old(waitingForRelease) && waitingForRelease == [] && Awaited()
      ensures old(Locking.Ordered(View())) ==> Locking.Ordered(View())
    {
      if Locking.Ordered(View()) { Locking.ReleaseKeepsOrder(View()); }
      currentHolder := None;
      notified := [];
      while |waitingForRelease| > 0
        invariant notified + waitingForRelease == old(waitingForRelease)
        invariant currentHolder == None && waitingToAcquire == old(waitingToAcquire)
        decreases |waitingForRelease|
      {
        notified := notified + [waitingForRelease[0]];
        waitingForRelease := waitingForRelease[1..];
      }
      if |waitingToAcquire| > 0 {
        var next := waitingToAcquire[0];
        waitingToAcquire := waitingToAcquire[1..];
        currentHolder := Some(next);
      }
    }

    method IsCurrentlyHolding(t: TxId) returns (holding: bool)
      ensures holding <==> currentHolder == Some(t)
    {
      match currentHolder {
        case None => holding := false;
        case Some(current) => holding := current == t;
      }
    }
  }
}
