/**
 * The conditions under which the prefetch buffer is coherent are needed: each breach has a safe continuation that
 * is not.
 */
module PrefetchLimits {
  import opened Base
  import opened Prefetching
  import opened PrefetchCoherence

  /** A run of safe steps from one state to another. */
  ghost predicate SafelyTo(s: State, acts: seq<Action>, s': State) {
    IsSafeRun(s, acts) && IsRun(s, acts) && After(s, acts) == s'
  }

  lemma {:induction false} Then(s: State, acts: seq<Action>, s1: State, a: Action)
    requires SafelyTo(s, acts, s1) && Enabled(s1, a) && !Breaks(s1, a)
    ensures SafelyTo(s, acts + [a], Apply(s1, a))
    decreases |acts|
  {
    hide Enabled, Apply, Breaks;
    var all := acts + [a];
    if acts == [] {
      assert s1 == s && all[0] == a && all[1..] == [];
      var s' := Apply(s, a);
      assert IsSafeRun(s', []) && IsRun(s', []) && After(s', []) == s';
      assert IsSafeRun(s, all);
      assert IsRun(s, all);
      assert After(s, all) == After(s', all[1..]);
    } else {
      Then(Apply(s, acts[0]), acts[1..], s1, a);
      assert all[0] == acts[0] && all[1..] == acts[1..] + [a];
    }
  }

  lemma Nowhere(s: State)
    ensures SafelyTo(s, [], s)
  {
  }

  /** A value that differs from the given one. */
  function Other(val: Option<Bytes>): (o: Option<Bytes>)
    ensures o != val
  {
    match val
    case None => Some([])
    case Some(_) => None
  }

  // ---------------------------------------------------------------- a key of one range, seen from outside

  /** The key is requested under r; no other range has a commit midway on it; r itself has none at all. */
  ghost predicate Alone(s: State, r: RangeId, k: Bytes) {
    && k in s.buf.states && r in HomesOf(s, k) && r !in s.midway
    && (forall q :: q in s.midway ==> s.midway[q].0 != k)
    && (forall j :: j in s.fetches ==> j < s.next)
  }

  ghost predicate InState(s: State, k: Bytes, st: KeyState) {
    k in s.buf.states && s.buf.states[k] == st
  }

  /** A commit of the key under its range, as two steps. */
  function AfterCommit(s: State, r: RangeId, k: Bytes, val: Option<Bytes>): State {
    Publish(s.(storage := Written(s.storage, r, k, val), midway := s.midway[r := (k, val)]), r)
  }

  lemma CommitRun(s0: State, before: seq<Action>, s: State, r: RangeId, k: Bytes, val: Option<Bytes>)
    returns (acts: seq<Action>)
    requires SafelyTo(s0, before, s) && r !in s.midway && (k in s.buf.states ==> r in HomesOf(s, k))
    ensures SafelyTo(s0, acts, AfterCommit(s, r, k, val))
  {
    hide SafelyTo;
    var s1 := s.(storage := Written(s.storage, r, k, val), midway := s.midway[r := (k, val)]);
    assert Apply(s, WriteStorage(r, k, val)) == s1;
    Then(s0, before, s, WriteStorage(r, k, val));
    Then(s0, before + [WriteStorage(r, k, val)], s1, UpdateBuffer(r));
    acts := before + [WriteStorage(r, k, val)] + [UpdateBuffer(r)];
  }

  lemma CommitEffect(s: State, r: RangeId, k: Bytes, val: Option<Bytes>)
    requires r !in s.midway
    ensures var s' := AfterCommit(s, r, k, val);
            && FindAt(s'.storage, r, k) == val && s'.midway == s.midway && s'.fetches == s.fetches
            && s'.homes == s.homes && s'.next == s.next
            && (forall q :: q != r ==> FindAt(s'.storage, q, k) == FindAt(s.storage, q, k))
            && (k in s.buf.states ==>
                   k in s'.buf.states && s'.buf.states[k] == Settled(s.buf.states[k]) && Find(s'.buf.store, k) == val)
  {
    assert s.midway[r := (k, val)] - {r} == s.midway;
  }

  /** If the range has a commit midway on whatever key, it can finish it; a key waiting to be fetched stays so. */
  lemma PublishRun(s0: State, before: seq<Action>, s: State, r: RangeId) returns (acts: seq<Action>, s': State)
    requires SafelyTo(s0, before, s)
    ensures SafelyTo(s0, acts, s') && r !in s'.midway && s'.midway == s.midway - {r}
    ensures s'.fetches == s.fetches && s'.homes == s.homes && s'.next == s.next && s'.storage == s.storage
    ensures s'.buf.states.Keys == s.buf.states.Keys
    ensures forall k :: k in s.buf.states && !s.buf.states[k].Loading? ==> s'.buf.states[k] == s.buf.states[k]
    ensures forall k :: k in s.buf.states && s.buf.states[k].Loading? && !Midway(s, r, k) ==>
              s'.buf.states[k] == s.buf.states[k]
    ensures forall k :: k in s.buf.states && s.buf.states[k].Loading? ==> !s'.buf.states[k].Requested?
    ensures forall k :: !Midway(s, r, k) ==> Find(s'.buf.store, k) == Find(s.buf.store, k)
    ensures forall k :: Midway(s, r, k) && k in s.buf.states ==> Find(s'.buf.store, k) == s.midway[r].1
  {
    hide SafelyTo;
    if r in s.midway {
      Then(s0, before, s, UpdateBuffer(r));
      acts, s' := before + [UpdateBuffer(r)], Publish(s, r);
    } else {
      acts, s' := before, s;
    }
  }

  // ---------------------------------------------------------------- a waiter over a fetch in flight

  /** A key waiting to be fetched under number n, and an unread or read fetch of it under that very number. */
  ghost predicate Spot(s: State, r: RangeId, k: Bytes, n: nat, j: nat) {
    && Alone(s, r, k) && InState(s, k, Requested(n))
    && j in s.fetches && s.fetches[j].r == r && s.fetches[j].k == k && s.fetches[j].n == n
  }

  lemma SpotCommit(s0: State, before: seq<Action>, s: State, r: RangeId, k: Bytes, n: nat, j: nat, val: Option<Bytes>)
    returns (acts: seq<Action>, s': State)
    requires SafelyTo(s0, before, s) && Spot(s, r, k, n, j)
    ensures SafelyTo(s0, acts, s') && Spot(s', r, k, n, j) && s'.fetches[j] == s.fetches[j]
    ensures FindAt(s'.storage, r, k) == val && Find(s'.buf.store, k) == val
  {
    hide SafelyTo;
    acts := CommitRun(s0, before, s, r, k, val);
    CommitEffect(s, r, k, val);
    s' := AfterCommit(s, r, k, val);
    hide AfterCommit;
  }

  /** Asking again starts loading under the same number. */
  lemma SpotAsk(s0: State, before: seq<Action>, s: State, r: RangeId, k: Bytes, n: nat, j: nat)
    returns (acts: seq<Action>, s': State)
    requires SafelyTo(s0, before, s) && Spot(s, r, k, n, j)
    ensures SafelyTo(s0, acts, s') && Alone(s', r, k) && InState(s', k, Loading(n)) && s'.next == s.next + 1
    ensures s'.fetches == s.fetches[s.next := Fetch(r, k, n, None)] && s'.storage == s.storage
    ensures s'.buf.store == s.buf.store
  {
    hide SafelyTo;
    var a := AskPrefetch(0, r, k);
    assert !Strays(s, a);
    Then(s0, before, s, a);
    acts, s' := before + [a], Ask(s, 0, r, k);
    assert HomesOf(s', k) == HomesOf(s, k);
  }

  /**
   * The fetch in flight reads storage while another one, started and failed meanwhile, leaves the key waiting
   * again.
   */
  lemma SpotRead(s0: State, before: seq<Action>, s: State, r: RangeId, k: Bytes, n: nat, j: nat)
    returns (acts: seq<Action>, s': State)
    requires SafelyTo(s0, before, s) && Spot(s, r, k, n, j) && s.fetches[j].got.None?
    ensures SafelyTo(s0, acts, s') && Spot(s', r, k, n, j) && s'.fetches[j].got == Some(FindAt(s.storage, r, k))
    ensures s'.storage == s.storage
  {
    hide SafelyTo;
    var s1: State;
    acts, s1 := SpotAsk(s0, before, s, r, k, n, j);
    assert s1.fetches[j] == s.fetches[j] && s1.fetches[s.next].k == k && s1.fetches[s.next].n == n;
    Then(s0, acts, s1, ReadStorage(j));
    var s2 := Apply(s1, ReadStorage(j));
    assert s2 == s1.(fetches := s2.fetches)
           && s2.fetches == s1.fetches[j := s1.fetches[j].(got := Some(FindAt(s.storage, r, k)))];
    acts, s' := SpotFail(s0, acts + [ReadStorage(j)], s2, r, k, n, j, s.next);
  }

  /** Another fetch under the number fails. */
  lemma SpotFail(s0: State, before: seq<Action>, s: State, r: RangeId, k: Bytes, n: nat, j: nat, i: nat)
    returns (acts: seq<Action>, s': State)
    requires SafelyTo(s0, before, s) && Alone(s, r, k) && InState(s, k, Loading(n)) && i != j
    requires i in s.fetches && s.fetches[i].k == k && s.fetches[i].n == n
    requires j in s.fetches && s.fetches[j].r == r && s.fetches[j].k == k && s.fetches[j].n == n
    ensures SafelyTo(s0, acts, s') && Spot(s', r, k, n, j) && s'.fetches[j] == s.fetches[j] && s'.storage == s.storage
  {
    hide SafelyTo;
    Then(s0, before, s, FailFetch(i));
    acts, s' := before + [FailFetch(i)], Fail(s, i);
  }

  /** A fetch that has read a value which has been deleted since puts it back. */
  lemma SpotFinish(s0: State, before: seq<Action>, s: State, r: RangeId, k: Bytes, n: nat, j: nat)
    returns (acts: seq<Action>, s': State)
    requires SafelyTo(s0, before, s) && Spot(s, r, k, n, j) && s.fetches[j].got.Some? && s.fetches[j].got.value.Some?
    requires FindAt(s.storage, r, k) == None
    ensures SafelyTo(s0, acts, s') && !Coherent(s')
  {
    hide SafelyTo, Coherent;
    var s1: State;
    acts, s1 := SpotAsk(s0, before, s, r, k, n, j);
    acts, s' := FinishStale(s0, acts, s1, r, k, n, j);
  }

  /**
   * From any state safely reached, a waiter that resumes while a fetch of its key under its number is in
   * flight allows a safe continuation after which the buffer has a value that storage has not.
   */
  lemma OverwriteBreaks(s: State, i: nat) returns (acts: seq<Action>, s': State)
    requires Inv(s) && Enabled(s, ResumeWaiter(i)) && Overwrites(s, ResumeWaiter(i))
    requires s.waiters[i].k in s.buf.states && s.waiters[i].r in HomesOf(s, s.waiters[i].k)
    requires !Crossed(s, s.waiters[i].k)
    ensures SafelyTo(Resume(s, i), acts, s') && !Coherent(s')
  {
    var w, s1 := s.waiters[i], Resume(s, i);
    var r, k, n, j := w.r, w.k, w.n, s.next;
    var f :| Collides(s, w, f);
    OneHome(s, r, k);
    NumbersBelow(s);
    hide Inv;
    Nowhere(s1);
    hide SafelyTo, Coherent;
    FailedOver(s, i, f);
    Then(s1, [], s1, FailFetch(f));
    var s2 := Fail(s1, f);
    hide Resume, Fail;
    acts, s' := SpotBreaks(s1, [] + [FailFetch(f)], s2, r, k, n, j);
  }

  /** A waiter resumes over a fetch in flight, which then fails: the key waits, with the new fetch under way. */
  lemma FailedOver(s: State, i: nat, f: nat)
    requires i in s.waiters && s.waiters[i].k in s.buf.states && f in s.fetches && f < s.next
    requires s.fetches[f].k == s.waiters[i].k && s.fetches[f].n == s.waiters[i].n
    ensures var w, s1 := s.waiters[i], Resume(s, i);
            && f in s1.fetches
            && var s2 := Fail(s1, f);
            && InState(s2, w.k, Requested(w.n)) && s2.midway == s.midway && s2.homes == s.homes
                  && s2.storage == s.storage
               && s2.next == s.next + 1 && s2.fetches == s.fetches[s.next := Fetch(w.r, w.k, w.n, None)] - {f}
  {
  }

  lemma SpotBreaks(s1: State, before: seq<Action>, s2: State, r: RangeId, k: Bytes, n: nat, j: nat)
    returns (acts: seq<Action>, s': State)
    requires SafelyTo(s1, before, s2) && InState(s2, k, Requested(n)) && r in HomesOf(s2, k)
    requires forall q :: q in s2.midway && q != r ==> s2.midway[q].0 != k
    requires j in s2.fetches && s2.fetches[j] == Fetch(r, k, n, None) && forall i :: i in s2.fetches ==> i < s2.next
    ensures SafelyTo(s1, acts, s') && !Coherent(s')
  {
    hide SafelyTo, Coherent;
    var s3: State;
    acts, s3 := PublishRun(s1, before, s2, r);
    assert Spot(s3, r, k, n, j);
    acts, s3 := SpotCommit(s1, acts, s3, r, k, n, j, Some([]));
    acts, s3 := SpotRead(s1, acts, s3, r, k, n, j);
    acts, s3 := SpotCommit(s1, acts, s3, r, k, n, j, None);
    acts, s' := SpotFinish(s1, acts, s3, r, k, n, j);
  }

  lemma OneHome(s: State, r: RangeId, k: Bytes)
    requires Inv(s) && k in s.buf.states && r in HomesOf(s, k)
    ensures HomesOf(s, k) == {r} && HomeOk(s, r, k)
    ensures !Crossed(s, k) ==> forall q :: q in s.midway && q != r ==> s.midway[q].0 != k
    ensures !s.buf.states[k].Requested? ==> !Crossed(s, k)
  {
    hide Counted, FetchOk, BeingFetched, HomeOk;
    assert KeyOk(s, k);
    if !Crossed(s, k) {
      forall q | q in s.midway && q != r ensures s.midway[q].0 != k { assert Midway(s, q, k) ==> q in HomesOf(s, k); }
    }
  }

  lemma NumbersBelow(s: State)
    requires Inv(s)
    ensures forall j :: j in s.fetches ==> j < s.next
  {
    forall j | j in s.fetches ensures j < s.next { FetchNumbered(s, j); }
  }

  // ---------------------------------------------------------------- a write by another server

  /** A fetch that has read something else than storage now has, and ends. */
  lemma FinishStale(s0: State, before: seq<Action>, s: State, r: RangeId, k: Bytes, n: nat, j: nat)
    returns (acts: seq<Action>, s': State)
    requires SafelyTo(s0, before, s) && InState(s, k, Loading(n)) && r in HomesOf(s, k) && !Midway(s, r, k)
    requires j in s.fetches && s.fetches[j].k == k && s.fetches[j].n == n && s.fetches[j].got.Some?
    requires var v := s.fetches[j].got.value; FindAt(s.storage, r, k) != if v.Some? then v else Find(s.buf.store, k)
    ensures SafelyTo(s0, acts, s') && !Coherent(s')
  {
    hide SafelyTo;
    Then(s0, before, s, FinishFetch(j));
    acts, s' := before + [FinishFetch(j)], Finish(s, j);
    assert !CoherentAt(s', r, k);
  }

  /** A fetch of a key whose value the buffer has and storage has not any more: finding nothing leaves the value. */
  lemma ReadNothing(s0: State, before: seq<Action>, s: State, r: RangeId, k: Bytes, n: nat, j: nat)
    returns (acts: seq<Action>, s': State)
    requires SafelyTo(s0, before, s) && InState(s, k, Loading(n)) && r in HomesOf(s, k) && !Midway(s, r, k)
    requires j in s.fetches && s.fetches[j] == Fetch(r, k, n, None) && FindAt(s.storage, r, k) == None
    requires k in s.buf.store
    ensures SafelyTo(s0, acts, s') && !Coherent(s')
  {
    hide SafelyTo, Coherent;
    Then(s0, before, s, ReadStorage(j));
    var s1 := Apply(s, ReadStorage(j));
    acts, s' := FinishStale(s0, before + [ReadStorage(j)], s1, r, k, n, j);
  }

  lemma AskThenReadNothing(s0: State, before: seq<Action>, s: State, r: RangeId, k: Bytes)
    returns (acts: seq<Action>, s': State)
    requires SafelyTo(s0, before, s) && k in s.buf.states && s.buf.states[k].Requested? && r in HomesOf(s, k)
    requires forall q :: q in s.midway ==> s.midway[q].0 != k
    requires FindAt(s.storage, r, k) == None && k in s.buf.store
    ensures SafelyTo(s0, acts, s') && !Coherent(s')
  {
    hide SafelyTo, Coherent;
    var a, s1 := AskPrefetch(0, r, k), Ask(s, 0, r, k);
    assert !Strays(s, a);
    Then(s0, before, s, a);
    acts, s' := ReadNothing(s0, before + [a], s1, r, k, s.buf.states[k].n, s.next);
  }

  /** A commit midway finishes over a key that is loading or fetched. */
  lemma PublishStale(s0: State, before: seq<Action>, s: State, r: RangeId, k: Bytes, h: RangeId)
    returns (acts: seq<Action>, s': State)
    requires SafelyTo(s0, before, s) && Midway(s, r, k) && k in s.buf.states && !s.buf.states[k].Requested?
    requires h in HomesOf(s, k)
    requires h == r || !Midway(s, h, k)
    requires FindAt(s.storage, h, k) != s.midway[r].1
    ensures SafelyTo(s0, acts, s') && !Coherent(s')
  {
    hide SafelyTo;
    Then(s0, before, s, UpdateBuffer(r));
    acts, s' := before + [UpdateBuffer(r)], Publish(s, r);
    assert !CoherentAt(s', h, k);
  }

  function Elsewhere(s: State, r: RangeId, k: Bytes): set<RangeId> {
    set q | q in s.midway && q != r && s.midway[q].0 == k
  }

  /** Commits of other ranges that are midway on a key not yet fetched finish and leave it so. */
  lemma {:induction false} ClearOthers(s0: State, before: seq<Action>, s: State, r: RangeId, k: Bytes)
    returns (acts: seq<Action>, s': State)
    requires SafelyTo(s0, before, s) && (k in s.buf.states ==> s.buf.states[k].Requested?)
    ensures SafelyTo(s0, acts, s') && s'.storage == s.storage && s'.homes == s.homes
    ensures s'.buf.states.Keys == s.buf.states.Keys && (k in s.buf.states ==> s'.buf.states[k] == s.buf.states[k])
    ensures (r in s.midway ==> r in s'.midway && s'.midway[r] == s.midway[r]) && Elsewhere(s', r, k) == {}
    decreases |Elsewhere(s, r, k)|
  {
    hide SafelyTo;
    if q :| q in Elsewhere(s, r, k) {
      Then(s0, before, s, UpdateBuffer(q));
      var s1 := Publish(s, q);
      assert Elsewhere(s1, r, k) == Elsewhere(s, r, k) - {q};
      acts, s' := ClearOthers(s0, before + [UpdateBuffer(q)], s1, r, k);
    } else {
      acts, s' := before, s;
    }
  }

  /** Once all who asked for a key have completed, it is evicted. */
  lemma {:induction false} ClearRequests(s0: State, before: seq<Action>, s: State, k: Bytes)
    returns (acts: seq<Action>, s': State)
    requires SafelyTo(s0, before, s) && Counted(s.buf) && k in s.buf.keyTxs
    ensures SafelyTo(s0, acts, s') && k !in s'.buf.states && s'.storage == s.storage && s'.midway == s.midway
    decreases |TxsOf(s.buf, k)|
  {
    hide SafelyTo;
    var t :| t in s.buf.keyTxs[k];
    assert k in KeysOf(s.buf, t);
    Then(s0, before, s, CompleteTx(t));
    CompleteExact(s.buf, t);
    var s1 := Apply(s, CompleteTx(t));
    hide Counted;
    if TxsOf(s.buf, k) == {t} {
      assert k in Dropped(s.buf, t);
      acts, s' := before + [CompleteTx(t)], s1;
    } else {
      assert TxsOf(s.buf, k) - {t} != {};
      assert TxsOf(s1.buf, k) == TxsOf(s.buf, k) - {t};
      acts, s' := ClearRequests(s0, before + [CompleteTx(t)], s1, k);
    }
  }

  lemma MidwayForeign(s0: State, before: seq<Action>, s: State, r: RangeId, k: Bytes)
    returns (acts: seq<Action>, s': State)
    requires SafelyTo(s0, before, s) && Midway(s, r, k) && FindAt(s.storage, r, k) != s.midway[r].1
    requires k in s.buf.states ==> r in HomesOf(s, k)
    ensures SafelyTo(s0, acts, s') && !Coherent(s')
  {
    hide SafelyTo, Coherent;
    if k in s.buf.states && !s.buf.states[k].Requested? {
      acts, s' := PublishStale(s0, before, s, r, k, r);
    } else {
      var s1: State;
      acts, s1 := ClearOthers(s0, before, s, r, k);
      var a, s2 := AskPrefetch(0, r, k), Ask(s1, 0, r, k);
      assert forall q :: Midway(s1, q, k) && q != r ==> q in Elsewhere(s1, r, k);
      assert !Strays(s1, a);
      Then(s0, acts, s1, a);
      assert r in HomesOf(s2, k);
      acts, s' := PublishStale(s0, acts + [a], s2, r, k, r);
    }
  }

  /** What is known of a key the buffer has, will have, or keeps a value for. */
  lemma HeldCases(s: State, r: RangeId, k: Bytes)
    requires Inv(s) && k in s.buf.states && r in HomesOf(s, k) && !Midway(s, r, k) && !Crossed(s, k)
    ensures HomesOf(s, k) == {r} && (forall q :: q in s.midway ==> s.midway[q].0 != k)
    ensures IsFetched(s.buf, k) ==> Find(s.buf.store, k) == FindAt(s.storage, r, k)
    ensures forall j :: Reading(s, r, k, j) ==> s.fetches[j].got.value == FindAt(s.storage, r, k)
    ensures k in s.buf.store ==> FindAt(s.storage, r, k).Some?
    ensures s.buf.states[k].Loading? && k in s.buf.store ==>
              exists j :: j in s.fetches && s.fetches[j].k == k && s.fetches[j].n == s.buf.states[k].n
                          && s.fetches[j].r == r
  {
    OneHome(s, r, k);
    hide Counted, KeyOk;
    forall j | Reading(s, r, k, j) ensures s.fetches[j].got.value == FindAt(s.storage, r, k) { assert FetchOk(s, j); }
    if s.buf.states[k].Loading? && k in s.buf.store {
      assert BeingFetched(s, k);
      var j :| j in s.fetches && s.fetches[j].k == k && s.fetches[j].n == s.buf.states[k].n;
      assert FetchOk(s, j);
    }
  }

  /**
   * From any state safely reached in which the buffer has, or will have, a value for a key, any change of
   * the key by another server, and a deletion if the buffer merely keeps a value of it, allows a safe
   * continuation that is not coherent.
   */
  lemma ForeignBreaks(s: State, r: RangeId, k: Bytes, val: Option<Bytes>) returns (acts: seq<Action>, s': State)
    requires Inv(s) && Contradicts(s, ForeignWrite(r, k, val))
    ensures SafelyTo(Apply(s, ForeignWrite(r, k, val)), acts, s') && !Coherent(s')
  {
    var s1 := Apply(s, ForeignWrite(r, k, val));
    Nowhere(s1);
    if Midway(s, r, k) {
      MidwayHome(s, r, k);
      hide SafelyTo, Coherent;
      if k in s.buf.states && r !in HomesOf(s, k) {
        var s2: State;
        acts, s2 := ClearRequests(s1, [], s1, k);
        hide Inv;
        acts, s' := MidwayForeign(s1, acts, s2, r, k);
      } else {
        hide Inv;
        acts, s' := MidwayForeign(s1, [], s1, r, k);
      }
    } else {
      StoredIsRequested(s, k);
      OneHome(s, r, k);
      HeldCases(s, r, k);
      hide Inv;
      acts, s' := HeldForeign(s, r, k, val);
    }
  }

  lemma StoredIsRequested(s: State, k: Bytes)
    requires Inv(s)
    ensures k in s.buf.store ==> k in s.buf.states
  {
    StoreKnown(s.buf);
  }

  lemma MidwayHome(s: State, r: RangeId, k: Bytes)
    requires Inv(s) && Midway(s, r, k) && !Stranded(s, r, k)
    ensures FindAt(s.storage, r, k) == s.midway[r].1
    ensures k in s.buf.states && r !in HomesOf(s, k) ==> k in s.buf.keyTxs
  {
    hide Counted, FetchOk, BeingFetched, KeyOk;
    assert MidwayOk(s, r);
  }

  lemma HeldForeign(s: State, r: RangeId, k: Bytes, val: Option<Bytes>) returns (acts: seq<Action>, s': State)
    requires k in s.buf.states && HomesOf(s, k) == {r} && (forall q :: q in s.midway ==> s.midway[q].0 != k)
    requires val != FindAt(s.storage, r, k) && (Holding(s, r, k) || (val.None? && k in s.buf.store))
    requires IsFetched(s.buf, k) ==> Find(s.buf.store, k) == FindAt(s.storage, r, k)
    requires forall j :: Reading(s, r, k, j) ==> s.fetches[j].got.value == FindAt(s.storage, r, k)
    requires k in s.buf.store ==> FindAt(s.storage, r, k).Some?
    requires s.buf.states[k].Loading? && k in s.buf.store ==>
               exists j :: j in s.fetches && s.fetches[j].k == k && s.fetches[j].n == s.buf.states[k].n
                           && s.fetches[j].r == r
    ensures SafelyTo(Apply(s, ForeignWrite(r, k, val)), acts, s') && !Coherent(s')
  {
    var s1 := Apply(s, ForeignWrite(r, k, val));
    Nowhere(s1);
    if IsFetched(s.buf, k) {
      acts, s' := [], s1;
      assert !CoherentAt(s', r, k);
    } else if j :| Reading(s, r, k, j) {
      hide SafelyTo, Coherent;
      acts, s' := FinishStale(s1, [], s1, r, k, s.fetches[j].n, j);
    } else if s.buf.states[k].Loading? {
      hide SafelyTo, Coherent;
      var j :| j in s.fetches && s.fetches[j].k == k && s.fetches[j].n == s.buf.states[k].n && s.fetches[j].r == r;
      assert !Reading(s, r, k, j);
      acts, s' := ReadNothing(s1, [], s1, r, k, s.buf.states[k].n, j);
    } else {
      hide SafelyTo, Coherent;
      acts, s' := AskThenReadNothing(s1, [], s1, r, k);
    }
  }

  // ---------------------------------------------------------------- another range

  /** A request of a key under a second range, or of one that another range is midway on. */
  lemma StrayRequestBreaks(s: State, t: TxId, r: RangeId, k: Bytes) returns (acts: seq<Action>, s': State)
    requires Inv(s) && Strays(s, AskPrefetch(t, r, k))
    ensures SafelyTo(Ask(s, t, r, k), acts, s') && !Coherent(s')
  {
    StrayCases(s, t, r, k);
    var s1 := Ask(s, t, r, k);
    hide SafelyTo, Coherent, Inv;
    if k in s.buf.states && r !in HomesOf(s, k) {
      var q :| q in HomesOf(s, k);
      if Midway(s, r, k) { acts, s' := HomeOfAnother(s1, r, q, k); }
      else { acts, s' := SecondHome(s1, q, r, k); }
    } else {
      var q :| q != r && Midway(s, q, k);
      acts, s' := HomeOfAnother(s1, q, r, k);
    }
  }

  lemma SecondHome(s: State, q: RangeId, r: RangeId, k: Bytes) returns (acts: seq<Action>, s': State)
    requires k in s.buf.states && !s.buf.states[k].Requested? && q in HomesOf(s, k) && r in HomesOf(s, k) && q != r
    requires !Midway(s, r, k)
    ensures SafelyTo(s, acts, s') && !Coherent(s')
  {
    Nowhere(s);
    hide SafelyTo, Coherent;
    var s2: State;
    acts, s2 := PublishRun(s, [], s, q);
    var val := Other(FindAt(s2.storage, r, k));
    acts := CommitRun(s, acts, s2, q, k, val);
    CommitEffect(s2, q, k, val);
    s' := AfterCommit(s2, q, k, val);
    hide AfterCommit;
    NotCoherent(s', r, k);
  }

  lemma HomeOfAnother(s: State, q: RangeId, r: RangeId, k: Bytes) returns (acts: seq<Action>, s': State)
    requires k in s.buf.states && !s.buf.states[k].Requested? && r in HomesOf(s, k) && q != r && Midway(s, q, k)
    ensures SafelyTo(s, acts, s') && !Coherent(s')
  {
    Nowhere(s);
    hide SafelyTo, Coherent;
    var s2: State;
    acts, s2 := PublishRun(s, [], s, r);
    var val := Other(s.midway[q].1);
    acts := CommitRun(s, acts, s2, r, k, val);
    CommitEffect(s2, r, k, val);
    var s3 := AfterCommit(s2, r, k, val);
    hide AfterCommit;
    acts, s' := PublishStale(s, acts, s3, q, k, r);
  }

  lemma NotCoherent(s: State, r: RangeId, k: Bytes)
    requires k in s.buf.states && r in HomesOf(s, k) && !CoherentAt(s, r, k)
    ensures !Coherent(s)
  {
  }

  lemma StrayCases(s: State, t: TxId, r: RangeId, k: Bytes)
    requires Inv(s) && Strays(s, AskPrefetch(t, r, k))
    ensures k in s.buf.states ==> HomesOf(s, k) != {}
    ensures k !in s.buf.states ==> k !in s.homes
  {
    hide Counted, FetchOk, BeingFetched, HomeOk;
    assert KeyOk(s, k);
  }

  /** A commit of a requested key under another range, other than a deletion of a key that waits to be fetched. */
  lemma StrayCommitBreaks(s: State, r: RangeId, k: Bytes, val: Option<Bytes>) returns (acts: seq<Action>, s': State)
    requires Inv(s) && Enabled(s, WriteStorage(r, k, val)) && Strays(s, WriteStorage(r, k, val))
    ensures SafelyTo(Apply(s, WriteStorage(r, k, val)), acts, s') && !Coherent(s')
  {
    var q := StrayHome(s, r, k);
    var s1 := Apply(s, WriteStorage(r, k, val));
    Nowhere(s1);
    hide SafelyTo, Coherent, Inv;
    var s2: State;
    if s.buf.states[k].Requested? {
      acts, s2 := ClearOthers(s1, [], s1, r, k);
      acts, s' := LeftBehind(s1, acts, s2, r, k, q);
    } else {
      acts, s2 := PublishRun(s1, [], s1, q);
      var other := Other(val);
      acts := CommitRun(s1, acts, s2, q, k, other);
      CommitEffect(s2, q, k, other);
      var s3 := AfterCommit(s2, q, k, other);
      hide AfterCommit;
      acts, s' := PublishStale(s1, acts, s3, r, k, q);
    }
  }

  /** A value written under another range stays in the buffer, and a fetch that finds nothing leaves it there. */
  lemma LeftBehind(s0: State, before: seq<Action>, s: State, r: RangeId, k: Bytes, q: RangeId)
    returns (acts: seq<Action>, s': State)
    requires SafelyTo(s0, before, s) && k in s.buf.states && s.buf.states[k].Requested? && q in HomesOf(s, k)
    requires Midway(s, r, k) && s.midway[r].1.Some? && q != r && Elsewhere(s, r, k) == {}
    ensures SafelyTo(s0, acts, s') && !Coherent(s')
  {
    hide SafelyTo, Coherent;
    assert forall p :: p in s.midway && p != r && s.midway[p].0 == k ==> p in Elsewhere(s, r, k);
    var s2: State;
    acts, s2 := PublishRun(s0, before, s, q);
    acts := CommitRun(s0, acts, s2, q, k, None);
    CommitEffect(s2, q, k, None);
    var s3 := AfterCommit(s2, q, k, None);
    hide AfterCommit;
    acts, s2 := PublishRun(s0, acts, s3, r);
    acts, s' := AskThenReadNothing(s0, acts, s2, q, k);
  }

  lemma StrayHome(s: State, r: RangeId, k: Bytes) returns (q: RangeId)
    requires Inv(s) && k in s.buf.states && r !in HomesOf(s, k)
    ensures HomesOf(s, k) == {q} && q != r
    ensures !Crossed(s, k) ==> forall p :: p in s.midway && p != q ==> s.midway[p].0 != k
  {
    hide Counted, FetchOk, BeingFetched, HomeOk;
    assert KeyOk(s, k);
    q :| q in HomesOf(s, k);
    OneHome(s, q, k);
  }

  /** A fetch for another range ends with a value that the range the key is in the buffer for does not have. */
  lemma FetchElsewhere(s0: State, before: seq<Action>, s: State, r: RangeId, k: Bytes, n: nat, j: nat, q: RangeId)
    returns (acts: seq<Action>, s': State)
    requires SafelyTo(s0, before, s) && InState(s, k, Loading(n)) && HomesOf(s, k) == {q} && q != r
    requires forall p :: p in s.midway ==> s.midway[p].0 != k
    requires j in s.fetches && s.fetches[j] == Fetch(r, k, n, None)
    ensures SafelyTo(s0, acts, s') && !Coherent(s')
  {
    hide SafelyTo, Coherent;
    var v := if FindAt(s.storage, q, k) == Some([]) then [0] else [];
    var a := ForeignWrite(r, k, Some(v));
    assert !Holding(s, r, k);
    Then(s0, before, s, a);
    var s2 := Apply(s, a);
    Then(s0, before + [a], s2, ReadStorage(j));
    var s3 := Apply(s2, ReadStorage(j));
    acts, s' := FinishStale(s0, before + [a] + [ReadStorage(j)], s3, q, k, n, j);
  }

  /** A waiter that resumes while a commit of a range the key was not requested for is midway on it. */
  lemma CrossedResumeBreaks(s: State, i: nat) returns (acts: seq<Action>, s': State)
    requires Inv(s) && Enabled(s, ResumeWaiter(i)) && s.waiters[i].k in s.buf.states && Crossed(s, s.waiters[i].k)
    ensures SafelyTo(Resume(s, i), acts, s') && !Coherent(s')
  {
    hide Counted, FetchOk, BeingFetched, HomeOk, SafelyTo, Coherent;
    var k := s.waiters[i].k;
    assert KeyOk(s, k);
    var q :| q !in HomesOf(s, k) && Midway(s, q, k);
    var h :| h in HomesOf(s, k);
    hide Inv;
    acts, s' := HomeOfAnother(Resume(s, i), q, h, k);
  }

  /** A waiter of another range that resumes while no commit is midway on the key. */
  lemma StrayResumeBreaks(s: State, i: nat) returns (acts: seq<Action>, s': State)
    requires Inv(s) && Enabled(s, ResumeWaiter(i)) && Strays(s, ResumeWaiter(i)) && s.waiters[i].k in s.buf.states
    requires !Crossed(s, s.waiters[i].k)
    ensures SafelyTo(Resume(s, i), acts, s') && !Coherent(s')
  {
    var w, s1 := s.waiters[i], Resume(s, i);
    var q := StrayHome(s, w.r, w.k);
    Nowhere(s1);
    hide SafelyTo, Coherent, Inv;
    assert !Midway(s, q, w.k);
    acts, s' := FetchElsewhere(s1, [], s1, w.r, w.k, w.n, s.next, q);
  }

  /** A waiter of another range that resumes over a fetch in flight, although a commit is midway on the key. */
  lemma StrayOverwriteBreaks(s: State, i: nat) returns (acts: seq<Action>, s': State)
    requires Inv(s) && Enabled(s, ResumeWaiter(i)) && Overwrites(s, ResumeWaiter(i))
    requires s.waiters[i].k in s.buf.states && s.waiters[i].r !in HomesOf(s, s.waiters[i].k)
    requires !Crossed(s, s.waiters[i].k)
    ensures SafelyTo(Resume(s, i), acts, s') && !Coherent(s')
  {
    var w, s1 := s.waiters[i], Resume(s, i);
    var r, k, n, j := w.r, w.k, w.n, s.next;
    var f :| Collides(s, w, f);
    var q := StrayHome(s, r, k);
    NumbersBelow(s);
    hide Inv;
    Nowhere(s1);
    hide SafelyTo, Coherent;
    FailedOver(s, i, f);
    Then(s1, [], s1, FailFetch(f));
    var s2 := Fail(s1, f);
    hide Resume, Fail;
    acts, s' := AskedElsewhere(s1, [] + [FailFetch(f)], s2, r, k, n, j, q);
  }

  lemma AskedElsewhere(s0: State, before: seq<Action>, s: State, r: RangeId, k: Bytes, n: nat, j: nat, q: RangeId)
    returns (acts: seq<Action>, s': State)
    requires SafelyTo(s0, before, s) && InState(s, k, Requested(n)) && HomesOf(s, k) == {q} && q != r
    requires forall p :: p in s.midway && p != q ==> s.midway[p].0 != k
    requires j in s.fetches && s.fetches[j] == Fetch(r, k, n, None) && j < s.next
    ensures SafelyTo(s0, acts, s') && !Coherent(s')
  {
    hide SafelyTo, Coherent;
    var s1: State;
    acts, s1 := PublishRun(s0, before, s, q);
    var a, s2 := AskPrefetch(0, q, k), Ask(s1, 0, q, k);
    assert !Strays(s1, a);
    Then(s0, acts, s1, a);
    acts, s' := FetchElsewhere(s0, acts + [a], s2, r, k, n, j, q);
  }

  // ---------------------------------------------------------------- a waiter of an evicted key

  /** It resumes while a commit of another range is midway on the key. */
  lemma EvictedStrayBreaks(s: State, i: nat) returns (acts: seq<Action>, s': State)
    requires Inv(s) && Enabled(s, ResumeWaiter(i)) && Strays(s, ResumeWaiter(i)) && s.waiters[i].k !in s.buf.states
    ensures SafelyTo(Resume(s, i), acts, s') && !Coherent(s')
  {
    var w, s1 := s.waiters[i], Resume(s, i);
    hide Inv;
    var q :| q != w.r && Midway(s, q, w.k);
    acts, s' := HomeOfAnother(s1, q, w.r, w.k);
  }

  /** It resumes over a fetch in flight that is another range's or has read something else. */
  lemma EvictedOverwriteBreaks(s: State, i: nat) returns (acts: seq<Action>, s': State)
    requires Inv(s) && Enabled(s, ResumeWaiter(i)) && Overwrites(s, ResumeWaiter(i)) && !Strays(s, ResumeWaiter(i))
    requires s.waiters[i].k !in s.buf.states
    ensures SafelyTo(Resume(s, i), acts, s') && !Coherent(s')
  {
    var w, s1 := s.waiters[i], Resume(s, i);
    var j :| Collides(s, w, j);
    StoredIsRequested(s, w.k);
    assert OneEach(s.fetches);
    hide Inv;
    forall q | q in s.midway ensures s.midway[q].0 != w.k { assert !Midway(s, q, w.k); }
    acts, s' := EvictedFetch(s1, w.r, w.k, w.n, j);
  }

  lemma EvictedFetch(s: State, r: RangeId, k: Bytes, n: nat, j: nat) returns (acts: seq<Action>, s': State)
    requires InState(s, k, Loading(n)) && HomesOf(s, k) == {r} && k !in s.buf.store && OneEach(s.fetches)
    requires forall q :: q in s.midway ==> s.midway[q].0 != k
    requires j in s.fetches && s.fetches[j].k == k && s.fetches[j].n == n
    requires s.fetches[j].r != r || Outdated(s, s.fetches[j])
    ensures SafelyTo(s, acts, s') && !Coherent(s')
  {
    Nowhere(s);
    hide SafelyTo, Coherent;
    var f := s.fetches[j];
    if f.got.None? {
      acts, s' := FetchElsewhere(s, [], s, f.r, k, n, j, r);
    } else if f.got.value != FindAt(s.storage, r, k) {
      acts, s' := FinishStale(s, [], s, r, k, n, j);
    } else {
      var a := ForeignWrite(r, k, Other(f.got.value));
      assert !Holding(s, r, k) by { assert forall i :: !Reading(s, r, k, i); }
      Then(s, [], s, a);
      acts, s' := FinishStale(s, [] + [a], Apply(s, a), r, k, n, j);
    }
  }

  // ---------------------------------------------------------------- the conditions are exact

  lemma ResumeBreaks(s: State, i: nat) returns (acts: seq<Action>, s': State)
    requires Inv(s) && Enabled(s, ResumeWaiter(i)) && Breaks(s, ResumeWaiter(i))
    ensures SafelyTo(Resume(s, i), acts, s') && !Coherent(s')
  {
    hide Inv, SafelyTo, Coherent;
    var w := s.waiters[i];
    if w.k !in s.buf.states {
      if Strays(s, ResumeWaiter(i)) { acts, s' := EvictedStrayBreaks(s, i); }
      else { acts, s' := EvictedOverwriteBreaks(s, i); }
    } else if Crossed(s, w.k) {
      acts, s' := CrossedResumeBreaks(s, i);
    } else if w.r in HomesOf(s, w.k) {
      acts, s' := OverwriteBreaks(s, i);
    } else if Overwrites(s, ResumeWaiter(i)) {
      acts, s' := StrayOverwriteBreaks(s, i);
    } else {
      acts, s' := StrayResumeBreaks(s, i);
    }
  }

  lemma BreachBreaks(s: State, a: Action) returns (acts: seq<Action>, s': State)
    requires Inv(s) && Enabled(s, a) && Breaks(s, a)
    ensures SafelyTo(Apply(s, a), acts, s') && !Coherent(s')
  {
    hide Inv, SafelyTo, Coherent;
    match a
    case AskPrefetch(t, r, k) => acts, s' := StrayRequestBreaks(s, t, r, k);
    case ResumeWaiter(i) => acts, s' := ResumeBreaks(s, i);
    case WriteStorage(r, k, val) => acts, s' := StrayCommitBreaks(s, r, k, val);
    case ForeignWrite(r, k, val) => acts, s' := ForeignBreaks(s, r, k, val);
  }

  /**
   * From any state safely reached, a step keeps the buffer coherent in all safe continuations if and only
   * if it is not a breach.
   */
  lemma StepCoherentIff(s: State, a: Action)
    requires Inv(s) && Enabled(s, a)
    ensures !Breaks(s, a) <==> forall acts, s' :: SafelyTo(Apply(s, a), acts, s') ==> Coherent(s')
  {
    if Breaks(s, a) {
      hide Inv;
      var acts, s' := BreachBreaks(s, a);
    } else {
      hide Coherent;
      forall acts, s' | SafelyTo(Apply(s, a), acts, s') ensures Coherent(s') { SafeStays(s, a, acts); }
    }
  }

  lemma SafeStays(s: State, a: Action, acts: seq<Action>)
    requires Inv(s) && Enabled(s, a) && !Breaks(s, a)
    ensures var s1 := Apply(s, a); IsSafeRun(s1, acts) && IsRun(s1, acts) ==> Coherent(After(s1, acts))
  {
    hide Inv, Coherent, Breaks;
    var s1 := Apply(s, a);
    StepInv(s, a);
    if IsSafeRun(s1, acts) {
      RunInv(s1, acts);
      InvCoherent(After(s1, acts));
    }
  }

  // ---------------------------------------------------------------- runs

  const K: Bytes := []

  function Empty(st: Storage): State {
    State(EMPTY, st, map[], map[], map[], {}, map[], 0)
  }

  /** One transaction prefetches a key of a range. */
  lemma PrefetchRun(st: Storage, r: RangeId) returns (acts: seq<Action>, s: State)
    ensures SafelyTo(Empty(st), acts, s) && IsFetched(s.buf, K) && s.storage == st && s.midway == map[]
    ensures HomesOf(s, K) == {r} && Find(s.buf.store, K) == FindAt(st, r, K)
  {
    var s0 := Empty(st);
    Nowhere(s0);
    hide SafelyTo;
    Then(s0, [], s0, AskPrefetch(1, r, K));
    var s1 := Ask(s0, 1, r, K);
    assert s1.fetches == map[0 := Fetch(r, K, 1, None)] && InState(s1, K, Loading(1)) && s1.buf.store == map[];
    Then(s0, [] + [AskPrefetch(1, r, K)], s1, ReadStorage(0));
    var s2 := Apply(s1, ReadStorage(0));
    Then(s0, [] + [AskPrefetch(1, r, K)] + [ReadStorage(0)], s2, FinishFetch(0));
    acts, s := [] + [AskPrefetch(1, r, K)] + [ReadStorage(0)] + [FinishFetch(0)], Finish(s2, 0);
  }

  /**
   * Two ranges of one server have the same key bytes: once the key is prefetched for one of them, a
   * locked get on the other one answers with the first one's value, in a run without any breach.
   */
  lemma OtherRangeAnswers(st: Storage, r: RangeId, q: RangeId) returns (acts: seq<Action>, s: State)
    requires FindAt(st, r, K).Some? && FindAt(st, r, K) != FindAt(st, q, K)
    ensures Initial(Empty(st)) && SafelyTo(Empty(st), acts, s)
    ensures LockedGet(s, q, K) == Value(FindAt(s.storage, r, K)) && LockedGet(s, q, K) != Value(FindAt(s.storage, q, K))
  {
    acts, s := PrefetchRun(st, r);
    hide SafelyTo;
  }

  /**
   * A range moves away, another server commits, and the range comes back: the kept entry answers with the old
   * value.
   */
  lemma MovedRangeGoesStale(st: Storage, r: RangeId, v: Bytes) returns (acts: seq<Action>, s: State)
    requires FindAt(st, r, K).Some? && FindAt(st, r, K) != Some(v)
    ensures Initial(Empty(st)) && SafelyTo(Empty(st), acts, s) && Contradicts(s, ForeignWrite(r, K, Some(v)))
    ensures var s' := Apply(s, ForeignWrite(r, K, Some(v)));
            !Coherent(s') && FindAt(s'.storage, r, K) == Some(v) && LockedGet(s', r, K) == Value(FindAt(st, r, K))
  {
    acts, s := PrefetchRun(st, r);
    hide SafelyTo;
    var s' := Apply(s, ForeignWrite(r, K, Some(v)));
    assert !CoherentAt(s', r, K);
  }

  /**
   * A request that finds the key loading after a failure is told of that failure at once, and resumes over the
   * running fetch.
   */
  lemma OverwritingWaiterGoesStale(st: Storage, r: RangeId)
    returns (acts: seq<Action>, s: State, more: seq<Action>, s': State)
    ensures Initial(Empty(st)) && SafelyTo(Empty(st), acts, s)
    ensures Enabled(s, ResumeWaiter(2)) && Overwrites(s, ResumeWaiter(2))
    ensures SafelyTo(Resume(s, 2), more, s') && !Coherent(s')
  {
    acts, s := WaiterRun(st, r);
    var s0 := Empty(st);
    InitialInv(s0);
    RunInv(s0, acts);
    hide Inv, SafelyTo, Coherent;
    assert Collides(s, s.waiters[2], 1);
    OneHome(s, r, K);
    hide HomeOk;
    more, s' := OverwriteBreaks(s, 2);
  }

  lemma WaiterRun(st: Storage, r: RangeId) returns (acts: seq<Action>, s: State)
    ensures SafelyTo(Empty(st), acts, s) && InState(s, K, Loading(1)) && HomesOf(s, K) == {r}
    ensures 1 in s.fetches && s.fetches[1] == Fetch(r, K, 1, None) && 2 in s.waiters
    ensures s.waiters[2] == Waiter(r, K, 1, true)
  {
    var s0 := Empty(st);
    Nowhere(s0);
    hide SafelyTo;
    Then(s0, [], s0, AskPrefetch(1, r, K));
    var s1 := Ask(s0, 1, r, K);
    acts := [] + [AskPrefetch(1, r, K)];
    assert InState(s1, K, Loading(1)) && HomesOf(s1, K) == {r} && s1.fetches == map[0 := Fetch(r, K, 1, None)]
           && s1.waiters == map[];
    Then(s0, acts, s1, FailFetch(0));
    var s2 := Fail(s1, 0);
    acts := acts + [FailFetch(0)];
    assert InState(s2, K, Requested(1)) && s2.fetches == map[] && s2.next == 1 && K in s2.failed;
    acts, s := WaiterRunEnd(s0, acts, s2, r);
  }

  lemma WaiterRunEnd(s0: State, before: seq<Action>, s2: State, r: RangeId) returns (acts: seq<Action>, s: State)
    requires SafelyTo(s0, before, s2) && InState(s2, K, Requested(1)) && s2.fetches == map[] && s2.next == 1
    requires K in s2.failed
    requires HomesOf(s2, K) == {r} && s2.midway == map[] && s2.waiters == map[]
    ensures SafelyTo(s0, acts, s) && InState(s, K, Loading(1)) && HomesOf(s, K) == {r}
    ensures 1 in s.fetches && s.fetches[1] == Fetch(r, K, 1, None) && 2 in s.waiters
    ensures s.waiters[2] == Waiter(r, K, 1, true)
  {
    hide SafelyTo;
    Then(s0, before, s2, AskPrefetch(2, r, K));
    var s3 := Ask(s2, 2, r, K);
    acts := before + [AskPrefetch(2, r, K)];
    Then(s0, acts, s3, AskPrefetch(3, r, K));
    var s4 := Ask(s3, 3, r, K);
    acts := acts + [AskPrefetch(3, r, K)];
    Then(s0, acts, s4, Wake(2));
    acts, s := acts + [Wake(2)], Apply(s4, Wake(2));
  }

  // ---------------------------------------------------------------- an orphan

  /** A step without a deserter, from an exact state. */
  lemma ExactThen(s0: State, acts: seq<Action>, s: State, a: Action)
    requires SafelyTo(s0, acts, s) && Exact(s.buf) && Enabled(s, a) && !Breaks(s, a) && !Deserts(s, a)
    ensures SafelyTo(s0, acts + [a], Apply(s, a)) && Exact(Apply(s, a).buf)
  {
    hide SafelyTo, Counted, Apply, Breaks;
    Then(s0, acts, s, a);
    StepCounted(s, a);
  }

  lemma FirstAsk(st: Storage, r: RangeId) returns (acts: seq<Action>, s: State)
    ensures SafelyTo(Empty(st), acts, s) && Exact(s.buf) && s.midway == map[]
    ensures s.fetches == map[0 := Fetch(r, K, 1, None)]
    ensures InState(s, K, Loading(1)) && HomesOf(s, K) == {r} && s.waiters == map[] && s.buf.txKeys.Keys == {1}
    ensures s.next == 1 && s.buf.seqNo == 1
  {
    var s0 := Empty(st);
    Nowhere(s0);
    assert Exact(s0.buf);
    hide SafelyTo, Exact;
    ExactThen(s0, [], s0, AskPrefetch(1, r, K));
    acts, s := [] + [AskPrefetch(1, r, K)], Ask(s0, 1, r, K);
  }

  /** Two transactions ask for the key, and the fetch fails. */
  lemma FailedRun(st: Storage, r: RangeId) returns (acts: seq<Action>, s: State)
    ensures SafelyTo(Empty(st), acts, s) && Exact(s.buf) && s.midway == map[] && s.fetches == map[] && K in s.failed
    ensures s.buf.txKeys.Keys == {1, 2} && s.waiters == map[1 := Waiter(r, K, 1, false)] && s.buf.seqNo == 1
  {
    var s1: State;
    acts, s1 := FirstAsk(st, r);
    var s0 := Empty(st);
    hide SafelyTo, Exact;
    ExactThen(s0, acts, s1, AskPrefetch(2, r, K));
    var s2 := Ask(s1, 2, r, K);
    acts := acts + [AskPrefetch(2, r, K)];
    assert s2.buf.txKeys.Keys == s1.buf.txKeys.Keys + {2};
    ExactThen(s0, acts, s2, FailFetch(0));
    acts, s := acts + [FailFetch(0)], Fail(s2, 0);
  }

  /** The second one is told, and both complete: the key is evicted. */
  lemma EvictedRun(st: Storage, r: RangeId) returns (acts: seq<Action>, s: State)
    ensures SafelyTo(Empty(st), acts, s) && s.buf == EMPTY.(seqNo := 1) && s.midway == map[] && s.fetches == map[]
    ensures 1 in s.waiters && s.waiters[1] == Waiter(r, K, 1, true)
  {
    var s0 := Empty(st);
    acts, s := FailedRun(st, r);
    hide SafelyTo, Exact;
    ExactThen(s0, acts, s, Wake(1));
    acts, s := acts + [Wake(1)], Apply(s, Wake(1));
    ExactThen(s0, acts, s, CompleteTx(1));
    acts, s := acts + [CompleteTx(1)], Apply(s, CompleteTx(1));
    assert s.buf.txKeys.Keys == {2};
    ExactThen(s0, acts, s, CompleteTx(2));
    acts, s := acts + [CompleteTx(2)], Apply(s, CompleteTx(2));
    assert s.buf.txKeys.Keys == {};
    NothingExact(s.buf);
  }

  lemma NothingExact(b: Buffer)
    requires Exact(b) && b.txKeys.Keys == {}
    ensures b == EMPTY.(seqNo := b.seqNo)
  {
    assert b.txKeys == map[];
    NothingElse(b);
  }

  /**
   * A waiter that resumes after its key was evicted leaves the key's state behind, and a later commit turns
   * it into a value that outlives every transaction; the buffer stays coherent all the while.
   */
  lemma OrphanOutlives(st: Storage, r: RangeId, v: Bytes)
    returns (acts: seq<Action>, s: State, more: seq<Action>, s': State)
    ensures Initial(Empty(st)) && SafelyTo(Empty(st), acts, s)
    ensures Enabled(s, ResumeWaiter(1)) && Deserts(s, ResumeWaiter(1)) && !Breaks(s, ResumeWaiter(1))
    ensures Exact(s.buf) && !Exact(Resume(s, 1).buf)
    ensures SafelyTo(Resume(s, 1), more, s') && s'.buf.txKeys == map[] && IsFetched(s'.buf, K)
    ensures Find(s'.buf.store, K) == Some(v)
  {
    acts, s := EvictedRun(st, r);
    hide SafelyTo;
    var s1 := Resume(s, 1);
    assert K in Orphans(s1.buf) && InState(s1, K, Loading(1)) && HomesOf(s1, K) == {r} && s1.midway == map[];
    hide Resume, Counted;
    more, s' := OrphanCommit(s1, r, v);
  }

  lemma OrphanCommit(s: State, r: RangeId, v: Bytes) returns (acts: seq<Action>, s': State)
    requires InState(s, K, Loading(1)) && HomesOf(s, K) == {r} && s.midway == map[] && s.buf.txKeys == map[]
    ensures SafelyTo(s, acts, s') && s'.buf.txKeys == map[] && IsFetched(s'.buf, K) && Find(s'.buf.store, K) == Some(v)
  {
    Nowhere(s);
    hide SafelyTo;
    acts := CommitRun(s, [], s, r, K, Some(v));
    CommitEffect(s, r, K, Some(v));
    s' := AfterCommit(s, r, K, Some(v));
  }
}
