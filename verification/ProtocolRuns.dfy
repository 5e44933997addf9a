/** Runs put together step by step: one transaction reads, writes, votes and is decided at one place. */
module ProtocolRuns {
  import opened Base
  import opened Leasing
  import opened Ranges
  import opened Protocol
  import opened ProtocolInvariant
  import opened Serializability
  import Locking
  import Records
  import Overlays
  import Decisions

  /** A run without harm from one state to another. */
  ghost predicate Leads(s: System, acts: seq<Action>, s': System) {
    IsSafeRun(s, acts) && IsRun(s, acts) && After(s, acts) == s'
  }

  lemma Nowhere(s: System)
    ensures Leads(s, [], s)
  {
  }

  lemma {:induction false} Then(s: System, acts: seq<Action>, s1: System, a: Action, s2: System)
    requires Leads(s, acts, s1) && Enabled(s1, a) && !Harms(s1, a) && Apply(s1, a) == s2
    ensures Leads(s, acts + [a], s2)
    decreases |acts|
  {
    hide Enabled, Apply, Harms;
    var all := acts + [a];
    if acts == [] {
      assert s1 == s && all[0] == a && all[1..] == [];
      Nowhere(s2);
    } else {
      Then(Apply(s, acts[0]), acts[1..], s1, a, s2);
      assert all[0] == acts[0] && all[1..] == acts[1..] + [a];
    }
  }

  // ---------------------------------------------------------------- what the transaction leaves behind

  function Locked(mem: Memory, t: TxId): Memory {
    mem.(lock := Locking.Lock(Some(t), []))
  }

  /** A participant that has read one key under a leader. */
  function Reader(m: nat, k: Bytes, val: Option<Bytes>): Overlays.Participant {
    Overlays.Participant({(k, val)}, map[], {}, m)
  }

  function Idling(r: RangeId, p: Overlays.Participant): Coord {
    Coord(Running, None, map[], map[], map[r := p])
  }

  function Voted(r: RangeId, p: Overlays.Participant, m: nat, v: Vote): Coord {
    Coord(Preparing, None, map[r := m], map[r := v], map[r := p])
  }

  function AfterBegin(s: System, t: TxId): System {
    s.(txs := s.txs[t := NEW_COORD], rows := s.rows[t := Decisions.Started])
  }

  function AfterAskRead(s: System, t: TxId, r: RangeId, m: nat): System
    requires (r, m) in s.places
  {
    s.(txs := s.txs[t := NEW_COORD.(waitingOn := Some((r, m)), parts := map[r := Overlays.FRESH])],
       rows := s.rows[t := Decisions.Started], places := s.places[(r, m) := Locked(s.places[(r, m)], t)])
  }

  /** A new transaction has read a key where the lock was free. */
  function AfterRead(s: System, t: TxId, r: RangeId, m: nat, k: Bytes): System
    requires (r, m) in s.places && r in s.stores
  {
    s.(txs := s.txs[t := Idling(r, Reader(m, k, Records.Get(s.stores[r].table, k)))],
       rows := s.rows[t := Decisions.Started],
       places := s.places[(r, m) := Locked(s.places[(r, m)], t)])
  }

  function AfterAsk(s: System, t: TxId, r: RangeId, m: nat, p: Overlays.Participant): System {
    s.(txs := s.txs[t := Coord(Preparing, None, map[r := m], map[], map[r := p])])
  }

  /** It has prepared there, where it still holds the lock. */
  function AfterVote(s: System, t: TxId, r: RangeId, m: nat, p: Overlays.Participant, rec: Overlays.Record): System
    requires (r, m) in s.places
  {
    s.(txs := s.txs[t := Voted(r, p, m, VoteOf(s.places[(r, m)]))],
       places := s.places[(r, m) := Prepare(s.places[(r, m)], t, rec)])
  }

  function AfterDecide(s: System, t: TxId, e: Epoch): System
    requires t in s.txs
  {
    s.(txs := s.txs[t := s.txs[t].(phase := Committed(e))], rows := s.rows[t := Decisions.Committed(e)],
       history := s.history + [Entry(t, e, s.txs[t].parts)])
  }

  // ---------------------------------------------------------------- its steps

  lemma BeginStep(s: System, t: TxId)
    requires t !in s.txs && t !in s.rows
    ensures Enabled(s, Begin(t)) && Apply(s, Begin(t)) == AfterBegin(s, t)
  {
  }

  lemma AskReadStep(s: System, t: TxId, r: RangeId, m: nat)
    requires Up(s, r, m) && s.places[(r, m)].lock == Locking.FREE
    ensures var s1 := AfterBegin(s, t);
            Enabled(s1, AskGet(t, r, m)) && Apply(s1, AskGet(t, r, m)) == AfterAskRead(s, t, r, m)
  {
    var s1, s2 := AfterBegin(s, t), AfterAskRead(s, t, r, m);
    assert Asking(NEW_COORD, r, m) == s2.txs[t] && Request(s.places[(r, m)], t) == Locked(s.places[(r, m)], t);
    assert s1.txs[t := s2.txs[t]] == s2.txs;
  }

  lemma ReadStep(s: System, t: TxId, r: RangeId, m: nat, k: Bytes)
    requires t !in s.txs && Up(s, r, m) && m > 0
    ensures var s2, a := AfterAskRead(s, t, r, m), FinishGet(t, r, m, k);
            Enabled(s2, a) && Apply(s2, a) == AfterRead(s, t, r, m, k)
  {
    var s2, s3 := AfterAskRead(s, t, r, m), AfterRead(s, t, r, m, k);
    var val := Records.Get(s.stores[r].table, k);
    hide Records.Get;
    assert {} + {(k, val)} == {(k, val)};
    assert TakeReply(s2.txs[t], r, k, val, m) == Idling(r, Reader(m, k, val));
    assert s2.txs[t := Idling(r, Reader(m, k, val))] == s3.txs;
  }

  lemma ReadRun(s0: System, before: seq<Action>, s: System, t: TxId, r: RangeId, m: nat, k: Bytes)
    returns (acts: seq<Action>)
    requires Leads(s0, before, s) && t !in s.txs && t !in s.rows && Up(s, r, m) && m > 0
    requires s.places[(r, m)].lock == Locking.FREE
    ensures Leads(s0, acts, AfterRead(s, t, r, m, k))
  {
    BeginStep(s, t);
    AskReadStep(s, t, r, m);
    ReadStep(s, t, r, m, k);
    hide Leads, Apply, Enabled, AfterBegin, AfterAskRead, AfterRead;
    Then(s0, before, s, Begin(t), AfterBegin(s, t));
    acts := before + [Begin(t)];
    Then(s0, acts, AfterBegin(s, t), AskGet(t, r, m), AfterAskRead(s, t, r, m));
    acts := acts + [AskGet(t, r, m)];
    Then(s0, acts, AfterAskRead(s, t, r, m), FinishGet(t, r, m, k), AfterRead(s, t, r, m, k));
    acts := acts + [FinishGet(t, r, m, k)];
  }

  function Preparing1(s: System, t: TxId, r: RangeId, p: Overlays.Participant): System {
    s.(txs := s.txs[t := Idling(r, p).(phase := Preparing)])
  }

  lemma StartStep(s: System, t: TxId, r: RangeId, p: Overlays.Participant)
    requires t in s.txs && s.txs[t] == Idling(r, p)
    ensures Enabled(s, StartCommit(t)) && Apply(s, StartCommit(t)) == Preparing1(s, t, r, p)
  {
  }

  lemma AskStep(s: System, t: TxId, r: RangeId, m: nat, p: Overlays.Participant)
    requires Up(s, r, m) && p.seen != {}
    ensures var s1, a := Preparing1(s, t, r, p), AskPrepare(t, r, m);
            Enabled(s1, a) && Apply(s1, a) == AfterAsk(s, t, r, m, p)
  {
    var s1, s2 := Preparing1(s, t, r, p), AfterAsk(s, t, r, m, p);
    assert s1.txs[t].(asked := s1.txs[t].asked[r := m]) == s2.txs[t];
    assert s1.txs[t := s2.txs[t]] == s2.txs && s1.places[(r, m) := s1.places[(r, m)]] == s1.places;
  }

  lemma VoteStep(s: System, t: TxId, r: RangeId, m: nat, p: Overlays.Participant, rec: Overlays.Record)
    requires Up(s, r, m) && Holds(s.places[(r, m)], t) && Overlays.Enumerates(rec, p)
    ensures var s1, a := AfterAsk(s, t, r, m, p), FinishPrepare(t, r, rec);
            Enabled(s1, a) && Apply(s1, a) == AfterVote(s, t, r, m, p, rec)
  {
    hide Overlays.Enumerates, Prepare;
    var s1, s2 := AfterAsk(s, t, r, m, p), AfterVote(s, t, r, m, p, rec);
    assert s1.txs[t].(votes := s1.txs[t].votes[r := VoteOf(s.places[(r, m)])]) == s2.txs[t];
    assert s1.txs[t := s2.txs[t]] == s2.txs;
  }

  lemma VoteRun(s0: System, before: seq<Action>, s: System, t: TxId, r: RangeId, m: nat, p: Overlays.Participant,
      rec: Overlays.Record)
    returns (acts: seq<Action>)
    requires Leads(s0, before, s) && t in s.txs && s.txs[t] == Idling(r, p) && p.seen != {}
    requires Overlays.Enumerates(rec, p)
    requires Up(s, r, m) && Holds(s.places[(r, m)], t)
    ensures Leads(s0, acts, AfterVote(s, t, r, m, p, rec))
  {
    StartStep(s, t, r, p);
    AskStep(s, t, r, m, p);
    VoteStep(s, t, r, m, p, rec);
    hide Leads, Apply, Enabled, Preparing1, AfterAsk, AfterVote, Overlays.Enumerates;
    Then(s0, before, s, StartCommit(t), Preparing1(s, t, r, p));
    acts := before + [StartCommit(t)];
    Then(s0, acts, Preparing1(s, t, r, p), AskPrepare(t, r, m), AfterAsk(s, t, r, m, p));
    acts := acts + [AskPrepare(t, r, m)];
    Then(s0, acts, AfterAsk(s, t, r, m, p), FinishPrepare(t, r, rec), AfterVote(s, t, r, m, p, rec));
    acts := acts + [FinishPrepare(t, r, rec)];
  }

  lemma DecisionStep(s: System, t: TxId, r: RangeId, p: Overlays.Participant, m: nat, v: Vote, e: Epoch)
    requires t in s.txs && s.txs[t] == Voted(r, p, m, v) && t in s.rows && s.rows[t].Started?
    requires Covers(v.lease, e) && v.highest <= e
    ensures Enabled(s, Decide(t, e, e)) && Commits(s, t, e) && Apply(s, Decide(t, e, e)) == AfterDecide(s, t, e)
  {
    assert s.txs[t].votes == map[r := v] && IsCommitEpoch(e, e, map[r := v]);
  }

  /** A decision on a vote that stands does no harm. */
  lemma StandsHarmless(s: System, t: TxId, r: RangeId, p: Overlays.Participant, m: nat, v: Vote, e: Epoch)
    requires t in s.txs && s.txs[t] == Voted(r, p, m, v) && r in s.stores && VoteStands(s, t, r)
    ensures !Harms(s, Decide(t, e, e))
  {
    hide Disturbs, Commits;
  }

  lemma DecideRun(s0: System, before: seq<Action>, s: System, t: TxId, r: RangeId, p: Overlays.Participant, m: nat,
      v: Vote, e: Epoch)
    returns (acts: seq<Action>)
    requires Leads(s0, before, s) && t in s.txs && s.txs[t] == Voted(r, p, m, v) && t in s.rows && s.rows[t].Started?
    requires Covers(v.lease, e) && v.highest <= e && r in s.stores && VoteStands(s, t, r)
    ensures Leads(s0, acts, AfterDecide(s, t, e))
  {
    DecisionStep(s, t, r, p, m, v, e);
    StandsHarmless(s, t, r, p, m, v, e);
    hide Leads, Apply, Enabled, Harms, AfterDecide, Commits;
    Then(s0, before, s, Decide(t, e, e), AfterDecide(s, t, e));
    acts := before + [Decide(t, e, e)];
  }
}
