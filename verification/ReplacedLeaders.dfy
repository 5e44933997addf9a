/**
 * Two runs in which replaced leaders do harm: a write skew through one that goes on serving, and a commit lost
 * with one that is unloaded.
 */
module ReplacedLeaders {
  import opened Base
  import opened Leasing
  import opened Ranges
  import opened Protocol
  import opened ProtocolInvariant
  import opened Serializability
  import opened ProtocolRuns
  import ProtocolLocks
  import ProtocolSteps
  import Locking
  import Records
  import Overlays

  const R: RangeId := 0
  const X: Bytes := [1]
  const Z: Bytes := [2]
  const V: Bytes := [3]

  const FIRST: Memory := Memory(Locking.FREE, 3, Lease(1, 9), map[])
  const SECOND: Memory := Memory(Locking.FREE, 10, Lease(10, 15), map[])

  /** A participant that has read one key, absent, under a leader, and buffers a write of another. */
  function Writer(m: nat, k: Bytes, w: Bytes): Overlays.Participant {
    Overlays.Participant({(k, None)}, map[w := V], {}, m)
  }

  function Record(w: Bytes): Overlays.Record {
    Overlays.Record([(w, V)], [])
  }

  /** One range, starting from an empty table. */
  const START: System :=
    System(map[R := Store(1, Lease(1, 9), 1, map[])], map[(R, 1) := FIRST], {}, map[(R, 1) := 1], map[], map[], [],
           map[R := []],
           map[R := map[]])

  lemma StartIsInitial()
    ensures Initial(START)
  {
    assert forall k, e :: !HasRow(map[], k, e);
  }

  // ---------------------------------------------------------------- reading one key and writing another

  lemma PutStep(s: System, t: TxId, m: nat, k: Bytes, w: Bytes)
    requires t in s.txs && s.txs[t] == Idling(R, Reader(m, k, None)) && R in s.stores
    ensures Enabled(s, DoPut(t, R, w, V))
    ensures Apply(s, DoPut(t, R, w, V)) == s.(txs := s.txs[t := Idling(R, Writer(m, k, w))])
  {
    assert Overlays.BufferPut(Reader(m, k, None), w, V) == Writer(m, k, w);
    assert SetPart(Idling(R, Reader(m, k, None)), R, Writer(m, k, w)) == Idling(R, Writer(m, k, w));
  }

  lemma OneWrite(m: nat, k: Bytes, w: Bytes)
    ensures Overlays.Enumerates(Record(w), Writer(m, k, w)) && Writer(m, k, w).seen != {}
  {
    var none: Option<Bytes> := None;
    assert (k, none) in Writer(m, k, w).seen;
  }

  /** It writes and votes where it holds the lock. */
  lemma WriteRun(s0: System, before: seq<Action>, s: System, t: TxId, m: nat, k: Bytes, w: Bytes)
    returns (acts: seq<Action>)
    requires Leads(s0, before, s) && t in s.txs && s.txs[t] == Idling(R, Reader(m, k, None)) && Up(s, R, m)
    requires Holds(s.places[(R, m)], t)
    ensures Leads(s0, acts, AfterVote(s, t, R, m, Writer(m, k, w), Record(w)))
  {
    PutStep(s, t, m, k, w);
    OneWrite(m, k, w);
    hide Leads, Overlays.Enumerates, Apply, Enabled;
    var s1 := s.(txs := s.txs[t := Idling(R, Writer(m, k, w))]);
    Then(s0, before, s, DoPut(t, R, w, V), s1);
    acts := VoteRun(s0, before + [DoPut(t, R, w, V)], s1, t, R, m, Writer(m, k, w), Record(w));
    SameVote(s, t, m, k, w);
  }

  lemma SameVote(s: System, t: TxId, m: nat, k: Bytes, w: Bytes)
    requires (R, m) in s.places
    ensures AfterVote(s.(txs := s.txs[t := Idling(R, Writer(m, k, w))]), t, R, m, Writer(m, k, w), Record(w)) ==
            AfterVote(s, t, R, m, Writer(m, k, w), Record(w))
  {
    var v := Voted(R, Writer(m, k, w), m, VoteOf(s.places[(R, m)]));
    assert s.txs[t := Idling(R, Writer(m, k, w))][t := v] == s.txs[t := v];
  }

  // ---------------------------------------------------------------- the run

  const READ_ONE: System := AfterRead(START, 1, R, 1, Z)

  const LOADED: System :=
    READ_ONE.(stores := map[R := Store(2, Lease(10, 15), 2, map[])], places := READ_ONE.places[(R, 2) := SECOND],
              floors := READ_ONE.floors[(R, 2) := 10])

  const READ_TWO: System := AfterRead(LOADED, 2, R, 2, X)
  const PREPARED_ONE: System := AfterVote(READ_TWO, 1, R, 1, Writer(1, Z, X), Record(X))
  const DECIDED_ONE: System := AfterDecide(PREPARED_ONE, 1, 9)
  const PREPARED_TWO: System := AfterVote(DECIDED_ONE, 2, R, 2, Writer(2, X, Z), Record(Z))
  const DECIDED_TWO: System := AfterDecide(PREPARED_TWO, 2, 10)

  const TAKEN: System := READ_ONE.(stores := map[R := Store(2, Lease(1, 9), 1, map[])])

  lemma TakeSecond() returns (acts: seq<Action>)
    ensures Leads(START, acts, TAKEN)
  {
    Nowhere(START);
    acts := ReadRun(START, [], START, 1, R, 1, Z);
    hide Leads;
    assert Apply(READ_ONE, TakeOver(R)) == TAKEN;
    Then(START, acts, READ_ONE, TakeOver(R), TAKEN);
    acts := acts + [TakeOver(R)];
  }

  /** The first transaction reads under the first leader, then a second one takes over and loads. */
  lemma LoadSecond() returns (acts: seq<Action>)
    ensures Leads(START, acts, LOADED)
  {
    hide Leads;
    acts := TakeSecond();
    assert Load(Lease(1, 9), 9, 5) == SECOND;
    assert Apply(TAKEN, LoadRange(R, 9, 5)) == LOADED;
    assert Due(TAKEN, R) == None;
    hide Unsettled;
    Then(START, acts, TAKEN, LoadRange(R, 9, 5), LOADED);
    acts := acts + [LoadRange(R, 9, 5)];
  }

  /** A second transaction reads under the second leader; the first one still holds its lock, and votes. */
  lemma PrepareFirst() returns (acts: seq<Action>)
    ensures Leads(START, acts, PREPARED_ONE)
  {
    acts := LoadSecond();
    hide Leads;
    acts := ReadRun(START, acts, LOADED, 2, R, 2, X);
    acts := WriteRun(START, acts, READ_TWO, 1, 1, Z, X);
  }

  /** The decision on the first leader's vote, while the second one serves, does harm. */
  lemma DecideFirst()
    ensures Enabled(PREPARED_ONE, Decide(1, 9, 9)) && Harms(PREPARED_ONE, Decide(1, 9, 9))
    ensures Apply(PREPARED_ONE, Decide(1, 9, 9)) == DECIDED_ONE
  {
    DecisionStep(PREPARED_ONE, 1, R, Writer(1, Z, X), 1, Vote(3, Lease(1, 9)), 9);
    hide Commits, Apply;
    Disturbing();
    assert !VoteStands(PREPARED_ONE, 1, R);
  }

  lemma Disturbing()
    ensures Disturbs(map[], [], R, Writer(1, Z, X))
  {
    assert Overlays.Buffered(Writer(1, Z, X), X) && Wrote(Writer(1, Z, X), X) == Some(V);
    assert ValueAfter(map[], [], R, X) == None;
  }

  lemma DecideSecond() returns (acts: seq<Action>)
    ensures Leads(DECIDED_ONE, acts, DECIDED_TWO)
  {
    Nowhere(DECIDED_ONE);
    hide Leads;
    acts := WriteRun(DECIDED_ONE, [], DECIDED_ONE, 2, 2, X, Z);
    acts := DecideRun(DECIDED_ONE, acts, PREPARED_TWO, 2, R, Writer(2, X, Z), 2, Vote(10, Lease(10, 15)), 10);
  }

  const ENTRY_ONE: Entry := Entry(1, 9, map[R := Writer(1, Z, X)])
  const ENTRY_TWO: Entry := Entry(2, 10, map[R := Writer(2, X, Z)])

  /**
   * Both transactions commit although each read what the other one was about to overwrite: neither
   * order of them is a serial one.
   */
  lemma NeitherOrderFits() returns (acts: seq<Action>, more: seq<Action>)
    ensures Initial(START) && Leads(START, acts, PREPARED_ONE)
    ensures Enabled(PREPARED_ONE, Decide(1, 9, 9)) && Harms(PREPARED_ONE, Decide(1, 9, 9))
    ensures Leads(Apply(PREPARED_ONE, Decide(1, 9, 9)), more, DECIDED_TWO)
    ensures DECIDED_TWO.history == [ENTRY_ONE, ENTRY_TWO] && DECIDED_TWO.base == map[R := map[]]
    ensures !ReadsFit(DECIDED_TWO.base, [ENTRY_ONE, ENTRY_TWO], 1)
    ensures !ReadsFit(DECIDED_TWO.base, [ENTRY_TWO, ENTRY_ONE], 1)
  {
    StartIsInitial();
    DecideFirst();
    BothEntries();
    hide Leads, ReadsFit, Initial, Enabled, Harms, Apply;
    acts := PrepareFirst();
    more := DecideSecond();
    MissedWrite(ENTRY_ONE, ENTRY_TWO, X);
    MissedWrite(ENTRY_TWO, ENTRY_ONE, Z);
  }

  lemma BothEntries()
    ensures DECIDED_TWO.history == [ENTRY_ONE, ENTRY_TWO] && DECIDED_TWO.base == map[R := map[]]
  {
  }

  lemma MissedWrite(x: Entry, y: Entry, k: Bytes)
    requires R in x.parts && R in y.parts && k in x.parts[R].writeset && (k, None) in y.parts[R].seen
    ensures !ReadsFit(map[R := map[]], [x, y], 1)
  {
    var base: map<RangeId, Records.Table> := map[R := map[]];
    assert [x, y][..1] == [x] && [x][..0] == [];
    assert ValueAfter(base[R], [x], R, k) == Some(x.parts[R].writeset[k]);
    var none: Option<Bytes> := None;
    assert (k, none) in y.parts[R].seen;
  }

  // ---------------------------------------------------------------- unloading the leader a commit is on its way to

  /** After that first decision, unloading the leader that holds its lock loses the commit for good. */
  lemma UnloadLosesCommit(more: seq<Action>) returns (acts: seq<Action>)
    requires IsRun(ProtocolSteps.Unloading(DECIDED_ONE, (R, 1)), more)
    ensures Leads(START, acts, PREPARED_ONE) && Enabled(DECIDED_ONE, UnloadRange(R, 1))
    ensures var s := After(ProtocolSteps.Unloading(DECIDED_ONE, (R, 1)), more); IsCommitted(s.txs, 1, R) ==>
              !IsApplied(s, 1, R)
  {
    hide Leads, ProtocolLocks.Weak, IsRun, After, IsApplied, Enabled, AfterDecide;
    acts := PrepareFirst();
    DecidedIsWeak(acts);
    HeldAfterDecision();
    UnloadDropsCommit(DECIDED_ONE, 1, (R, 1), more);
  }

  lemma HeldAfterDecision()
    ensures Up(DECIDED_ONE, R, 1) && IsCommitted(DECIDED_ONE.txs, 1, R) && !IsApplied(DECIDED_ONE, 1, R)
    ensures R in DECIDED_ONE.txs[1].asked && DECIDED_ONE.txs[1].asked[R] == 1 && Enabled(DECIDED_ONE, UnloadRange(R, 1))
  {
  }

  lemma DecidedIsWeak(acts: seq<Action>)
    requires Leads(START, acts, PREPARED_ONE)
    ensures ProtocolLocks.Weak(DECIDED_ONE)
  {
    StartIsInitial();
    DecideFirst();
    hide ProtocolLocks.Weak, Initial, Harms, Commits, Enabled, Apply;
    ProtocolLocks.InitialWeak(START);
    ProtocolLocks.RunWeak(START, acts);
    hide IsRun, After, IsSafeRun;
    ProtocolLocks.StepWeak(PREPARED_ONE, Decide(1, 9, 9));
  }
}
