/**
 * The condition under which runs are serializable is exact: whenever a step does harm, transactions that follow
 * can read what no serial order explains.
 */
module SerialLimits {
  import opened Base
  import opened Leasing
  import opened Ranges
  import opened Protocol
  import opened ProtocolLocks
  import opened ProtocolOrder
  import opened ProtocolInvariant
  import opened ProtocolSteps
  import opened Serializability
  import opened ProtocolRuns
  import Locking
  import Records
  import Overlays

  // ---------------------------------------------------------------- a new leader and a reader

  lemma {:induction false} Above(ids: set<TxId>) returns (b: TxId)
    ensures b !in ids && forall i :: i in ids ==> i < b
    decreases ids
  {
    b := 0;
    if i :| i in ids {
      var c := Above(ids - {i});
      b := if c <= i then i + 1 else c;
      assert forall j :: j in ids ==> j == i || j in ids - {i};
    }
  }

  /** A place where a new transaction can read and be decided at once. */
  ghost predicate Open(s: System, r: RangeId, m: nat) {
    && Up(s, r, m) && m > 0 && ServingPlace(s, r) == (r, m) && s.places[(r, m)].lock == Locking.FREE
    && Covers(s.places[(r, m)].lease, s.places[(r, m)].highest)
  }

  function AfterTakeOver(s: System, r: RangeId): System
    requires r in s.stores
  {
    s.(stores := s.stores[r := s.stores[r].(leader := s.stores[r].leader + 1)])
  }

  /** Nothing is due, so a new leader may load without harm. */
  lemma LoadHarmless(s: System, r: RangeId, epoch: Epoch, n: nat)
    requires r in s.stores && ServingPlace(s, r) in s.places && Due(s, r) == None
    ensures !Harms(s, LoadRange(r, epoch, n))
  {
    hide Unsettled;
  }

  lemma NewLeader(s0: System, before: seq<Action>, s: System, r: RangeId)
    returns (acts: seq<Action>, s': System, m: nat)
    requires Leads(s0, before, s) && Weak(s) && DownKnown(s) && r in s.stores && ServingPlace(s, r) in s.places
    requires Due(s, r) == None
    ensures Leads(s0, acts, s') && Open(s', r, m) && s'.txs == s.txs && s'.rows == s.rows && s'.history == s.history
    ensures s'.base == s.base
    ensures s'.stores[r].table == s.stores[r].table
  {
    hide Leads, Weak;
    var s1 := AfterTakeOver(s, r);
    assert Apply(s, TakeOver(r)) == s1 && !Harms(s, TakeOver(r));
    Then(s0, before, s, TakeOver(r), s1);
    RangeApplied(s, r);
    ServingNumber(s, r);
    m := s1.stores[r].leader;
    var epoch := s.stores[r].lease.hi;
    assert ServingPlace(s1, r) == ServingPlace(s, r) && Due(s1, r) == Due(s, r);
    LoadHarmless(s1, r, epoch, 0);
    NewNumber(s, r);
    s' := LoadStep(s1, r, epoch, 0);
    Then(s0, before + [TakeOver(r)], s1, LoadRange(r, epoch, 0), s');
    acts := before + [TakeOver(r)] + [LoadRange(r, epoch, 0)];
  }

  lemma NewNumber(s: System, r: RangeId)
    requires Weak(s) && DownKnown(s) && r in s.stores
    ensures s.stores[r].serving <= s.stores[r].leader && (r, s.stores[r].leader + 1) !in s.places
    ensures (r, s.stores[r].leader + 1) !in s.down
  {
    hide TxOk, SentOk, Known, TermOk, HistoryOk, AppliedOk, Released, PlaceOk, Fenced;
    if (r, s.stores[r].leader + 1) in s.places { PlaceNumber(s, (r, s.stores[r].leader + 1)); }
  }

  lemma NoWrites(m: nat, k: Bytes, val: Option<Bytes>)
    ensures Overlays.Enumerates(Overlays.Record([], []), Reader(m, k, val)) && Reader(m, k, val).seen != {}
  {
    assert (k, val) in Reader(m, k, val).seen;
  }

  /** A transaction that reads a key stored with another value than the history left is decided, and does not fit. */
  lemma ReadsStale(s0: System, before: seq<Action>, s: System, r: RangeId, m: nat, k: Bytes)
    returns (acts: seq<Action>, s': System)
    requires Leads(s0, before, s) && Open(s, r, m) && s.rows.Keys <= s.txs.Keys && r in s.base
    requires Records.Get(s.stores[r].table, k) != ValueAfter(s.base[r], s.history, r, k)
    ensures Leads(s0, acts, s') && !AllFit(s')
  {
    hide Leads;
    var u := Above(s.txs.Keys);
    var val, mem := Records.Get(s.stores[r].table, k), s.places[(r, m)];
    var p := Reader(m, k, val);
    acts := ReadRun(s0, before, s, u, r, m, k);
    var s1 := AfterRead(s, u, r, m, k);
    NoWrites(m, k, val);
    hide Overlays.Enumerates;
    acts := VoteRun(s0, acts, s1, u, r, m, p, Overlays.Record([], []));
    var s2 := AfterVote(s1, u, r, m, p, Overlays.Record([], []));
    acts := DecideRun(s0, acts, s2, u, r, p, m, VoteOf(s1.places[(r, m)]), mem.highest);
    s' := AfterDecide(s2, u, mem.highest);
    Misfit(s.base, s.history, Entry(u, mem.highest, map[r := p]), r, (k, val));
  }

  lemma Misfit(base: map<RangeId, Records.Table>, h: seq<Entry>, x: Entry, r: RangeId, y: (Bytes, Option<Bytes>))
    requires r in x.parts && r in base && y in x.parts[r].seen && y.1 != ValueAfter(base[r], h, r, y.0)
    ensures !ReadsFit(base, h + [x], |h|)
  {
    hide ValueAfter;
    assert (h + [x])[..|h|] == h && (h + [x])[|h|] == x;
  }

  /** Once nothing is due and a key is stored with another value than the history left, somebody can read it. */
  lemma StaleBreaks(s0: System, before: seq<Action>, s: System, r: RangeId, k: Bytes)
    returns (acts: seq<Action>, s': System)
    requires Leads(s0, before, s) && Weak(s) && DownKnown(s) && r in s.stores && ServingPlace(s, r) in s.places
    requires Due(s, r) == None
    requires r in s.base && Records.Get(s.stores[r].table, k) != ValueAfter(s.base[r], s.history, r, k)
    ensures Leads(s0, acts, s') && !AllFit(s')
  {
    hide Leads, Due;
    assert s.rows.Keys <= s.txs.Keys;
    hide Weak;
    var s1: System;
    var m: nat;
    acts, s1, m := NewLeader(s0, before, s, r);
    hide Open, AllFit, DownKnown;
    acts, s' := ReadsStale(s0, acts, s1, r, m, k);
  }

  // ---------------------------------------------------------------- a commit applied

  /** A decided transaction that holds a lock at a loaded place, with everything that holds in all runs. */
  ghost predicate CanApply(s: System, t: TxId, pl: Place) {
    && Weak(s) && Order(s) && DownKnown(s) && pl in s.places && pl !in s.down && pl.0 in s.stores && pl.0 in s.applied
    && IsCommitted(s.txs, t, pl.0) && Holds(s.places[pl], t) && Records.WellFormed(s.stores[pl.0].table)
  }

  lemma ApplyRunAt(s0: System, before: seq<Action>, s: System, t: TxId, pl: Place) returns (acts: seq<Action>)
    requires Leads(s0, before, s) && CanApply(s, t, pl)
    ensures Leads(s0, acts, Applied(s, t, pl)) && Weak(Applied(s, t, pl)) && DownKnown(Applied(s, t, pl))
  {
    hide Leads, Weak, Order, Written, Commit, Records.WellFormed;
    var a := RangeCommit(t, pl.0, pl.1, true);
    assert Apply(s, a) == Applied(s, t, pl) && !Harms(s, a);
    StepWeak(s, a);
    StepDown(s, a);
    hide Apply, Applied;
    Then(s0, before, s, a, Applied(s, t, pl));
    acts := before + [a];
  }

  /** What it makes of the table, and of the rest. */
  lemma ApplyFacts(s: System, t: TxId, pl: Place)
    requires CanApply(s, t, pl)
    ensures var r, p, e, s' := pl.0, s.txs[t].parts[pl.0], s.txs[t].phase.epoch, Applied(s, t, pl);
            && s'.txs == s.txs && s'.history == s.history && s'.base == s.base && r in s'.stores
            && s'.stores[r].serving == s.stores[r].serving
            && forall k :: Records.Get(s'.stores[r].table, k) ==
                           if MaySet(s.stores[r].table, p, e, k) then Wrote(p, k) else Records.Get(s.stores[r].table, k)
  {
    hide Weak, Order, Records.WellFormed, MaySet, Wrote, Overlays.Disjoint, RecordKept;
    var r := pl.0;
    DisjointPart(s, t, r);
    HeldWhereAsked(s, t, pl);
    TrackedAt(s, t, r);
    KeptWhileHeld(s.txs[t], t, r, s.places[pl], s.applied[r]);
    CommitTable(s.places[pl], s.stores[r].table, t, s.txs[t].phase.epoch, s.txs[t].parts[r]);
    hide Written, Commit;
  }

  lemma DueElsewhere(s: System, t: TxId, pl: Place)
    requires CanApply(s, t, pl) && pl != ServingPlace(s, pl.0) && ServingPlace(s, pl.0) in s.places
    ensures var s' := Applied(s, t, pl);
            pl.0 in s'.stores && ServingPlace(s', pl.0) in s'.places && Due(s', pl.0) == Due(s, pl.0)
  {
    hide Weak, Order, Records.WellFormed, Written, Commit, DueAt;
  }

  lemma DueThere(s: System, t: TxId, r: RangeId)
    requires r in s.stores && CanApply(s, t, ServingPlace(s, r))
    ensures var s' := Applied(s, t, ServingPlace(s, r));
            r in s'.stores && ServingPlace(s', r) in s'.places && Due(s', r) == None
  {
    var pl := ServingPlace(s, r);
    hide Weak, Order, Records.WellFormed, Written, DueAt, Released, Locking.Release;
    var mem := Commit(s.places[pl], t, s.txs[t].phase.epoch);
    ReleasedAfterRelease(s, pl, mem);
    NoneDue(s.txs, mem, pl !in s.down, r);
    hide Commit;
  }

  // ---------------------------------------------------------------- losing writes that are needed

  /** The due writes have been cut off: nothing is due any more, and all else is as before. */
  ghost predicate CutOff(s: System, s': System, r: RangeId) {
    && Weak(s') && Order(s') && DownKnown(s') && r in s.stores && r in s'.stores && r in s.base && r in s'.applied
    && s'.txs == s.txs && s'.history == s.history && s'.base == s.base && s'.stores[r].table == s.stores[r].table
    && ServingPlace(s', r) in s'.places && Due(s', r) == None
    && forall u :: Late(s, u, r) ==>
                     var pl := (r, s.txs[u].asked[r]);
                     pl in s'.places && pl !in s'.down && pl != ServingPlace(s', r) && Holds(s'.places[pl], u)
  }

  lemma CutOffBreaks(s: System, s1: System, r: RangeId) returns (acts: seq<Action>, s': System)
    requires CutOff(s, s1, r) && ServingPlace(s, r) in s.places && Needed(s, r) && Records.WellFormed(s.stores[r].table)
    ensures Leads(s1, acts, s') && !AllFit(s')
  {
    Nowhere(s1);
    hide Leads, Weak, Order, Due, AllFit, DownKnown, Records.WellFormed, Wrote, MaySet;
    var k :| Settles(Due(s, r), k) && Unsettled(s, r, k);
    var v := ValueAfter(s.base[r], s.history, r, k);
    if Records.Get(s.stores[r].table, k) != v {
      acts, s' := StaleBreaks(s1, [], s1, r, k);
    } else {
      var u :| Late(s, u, r) && MaySet(s.stores[r].table, s.txs[u].parts[r], s.txs[u].phase.epoch, k)
               && Wrote(s.txs[u].parts[r], k) != v;
      acts, s' := LateBreaks(s1, u, (r, s.txs[u].asked[r]), k);
    }
  }

  lemma LateBreaks(s: System, u: TxId, pl: Place, k: Bytes) returns (acts: seq<Action>, s': System)
    requires CanApply(s, u, pl) && pl != ServingPlace(s, pl.0) && ServingPlace(s, pl.0) in s.places
    requires Due(s, pl.0) == None && pl.0 in s.base
    requires MaySet(s.stores[pl.0].table, s.txs[u].parts[pl.0], s.txs[u].phase.epoch, k)
    requires Wrote(s.txs[u].parts[pl.0], k) != ValueAfter(s.base[pl.0], s.history, pl.0, k)
    ensures Leads(s, acts, s') && !AllFit(s')
  {
    Nowhere(s);
    hide Leads, AllFit, Due, MaySet, Wrote;
    acts := ApplyRunAt(s, [], s, u, pl);
    ApplyFacts(s, u, pl);
    DueElsewhere(s, u, pl);
    hide CanApply, Applied, Weak, DownKnown;
    acts, s' := StaleBreaks(s, acts, Applied(s, u, pl), pl.0, k);
  }

  lemma LoadCuts(s: System, r: RangeId, epoch: Epoch, n: nat)
    requires Inv(s) && Enabled(s, LoadRange(r, epoch, n))
    ensures CutOff(s, LoadStep(s, r, epoch, n), r)
  {
    hide Weak, Order, Data, Load;
    var a := LoadRange(r, epoch, n);
    StepWeak(s, a);
    StepOrder(s, a);
    StepDown(s, a);
    LoadFacts(s, r, epoch, n);
    RangeApplied(s, r);
    var s' := LoadStep(s, r, epoch, n);
    assert r in s'.applied;
    hide LoadStep, Due, DownKnown;
    forall u | Late(s, u, r)
      ensures (r, s.txs[u].asked[r]) in s'.places && Holds(s'.places[(r, s.txs[u].asked[r])], u)
    {
    }
  }

  lemma UnloadCuts(s: System, r: RangeId, m: nat)
    requires Inv(s) && Enabled(s, UnloadRange(r, m)) && m == s.stores[r].serving
    ensures CutOff(s, Unloading(s, (r, m)), r)
  {
    hide Weak, Order, Data;
    var a := UnloadRange(r, m);
    StepWeak(s, a);
    StepOrder(s, a);
    RangeApplied(s, r);
    assert Apply(s, a) == Unloading(s, (r, m));
  }

  // ---------------------------------------------------------------- deciding on a vote that does not stand

  lemma RangeFacts(s: System, r: RangeId)
    requires Inv(s) && r in s.stores && ServingPlace(s, r) in s.places && r in s.base
    ensures r in s.applied && Records.WellFormed(s.stores[r].table)
    ensures Current(s.base[r], s.history, r, s.stores[r].table, Due(s, r))
  {
    hide Weak, Order, Data, Current;
    RangeAt(s, r);
  }

  /** Applying what is due, above every stored row, gives what the history says. */
  lemma DueWins(b: Records.Table, h: seq<Entry>, r: RangeId, tb: Records.Table, tb': Records.Table,
      p: Overlays.Participant, e: Epoch)
    requires Current(b, h, r, tb, Some(p)) && Overlays.UpTo(tb, e)
    requires forall k :: Records.Get(tb', k) == if MaySet(tb, p, e, k) then Wrote(p, k) else Records.Get(tb, k)
    ensures forall k :: Records.Get(tb', k) == ValueAfter(b, h, r, k)
  {
    CurrentAfterCommit(b, h, r, tb, tb', e, p);
    AsStored(b, h, r, tb');
  }

  lemma AsStored(b: Records.Table, h: seq<Entry>, r: RangeId, tb: Records.Table)
    requires Current(b, h, r, tb, None)
    ensures forall k :: Records.Get(tb, k) == ValueAfter(b, h, r, k)
  {
    hide ValueAfter, Records.Get;
    forall k ensures Records.Get(tb, k) == ValueAfter(b, h, r, k) {
      assert Visible(None, k, Records.Get(tb, k)) == ValueAfter(b, h, r, k);
    }
  }

  /** The decided transaction whose writes are due. */
  lemma DueHolder(s: System, r: RangeId) returns (w: TxId)
    requires Inv(s) && r in s.stores && ServingPlace(s, r) in s.places && Due(s, r).Some?
    ensures Holds(s.places[ServingPlace(s, r)], w) && IsCommitted(s.txs, w, r) && Due(s, r) == Some(s.txs[w].parts[r])
    ensures Overlays.UpTo(s.stores[r].table, s.txs[w].phase.epoch) && ServingPlace(s, r) !in s.down
  {
    hide Inv, Fresh, AllBounded, LateOk, Overlays.UpTo;
    w := s.places[ServingPlace(s, r)].lock.holder.value;
    InvPair(s, w, r);
  }

  /** The state after a decision has everything that holds in all runs. */
  ghost predicate Continues(s: System, s1: System, t: TxId, e: Epoch) {
    Inv(s) && Is(s, t, Preparing) && s1 == AfterDecide(s, t, e) && Weak(s1) && Order(s1) && DownKnown(s1)
  }

  lemma CanSettle(s: System, t: TxId, e: Epoch, r: RangeId, s1: System, w: TxId)
    requires Continues(s, s1, t, e) && r in s.stores && ServingPlace(s, r) in s.places && r in s.base
    requires ServingPlace(s, r) !in s.down
    requires Holds(s.places[ServingPlace(s, r)], w) && IsCommitted(s.txs, w, r)
    ensures CanApply(s1, w, ServingPlace(s, r)) && s1.txs[w] == s.txs[w] && s1.stores == s.stores && s1.base == s.base
    ensures ServingPlace(s1, r) == ServingPlace(s, r)
  {
    hide Inv, Weak, Order, DownKnown, Records.WellFormed, Current;
    RangeFacts(s, r);
  }

  /** What is due is applied; then every key reads as the history did before the decision. */
  lemma SettleFirst(s: System, t: TxId, e: Epoch, r: RangeId, s1: System) returns (acts: seq<Action>, s': System)
    requires Continues(s, s1, t, e) && r in s.stores && ServingPlace(s, r) in s.places && r in s.base
    requires Due(s1, r) == Due(s, r) && Due(s, r).Some?
    ensures Leads(s1, acts, s') && Weak(s') && DownKnown(s') && r in s'.stores && ServingPlace(s', r) in s'.places
    ensures Due(s', r) == None
    ensures s'.history == s1.history && s'.base == s.base
    ensures forall k :: Records.Get(s'.stores[r].table, k) == ValueAfter(s.base[r], s.history, r, k)
  {
    hide Leads, Inv, Weak, Order, Due, Current, Overlays.UpTo, DownKnown, Records.WellFormed, CanApply;
    Nowhere(s1);
    RangeFacts(s, r);
    var w := DueHolder(s, r);
    var pl := ServingPlace(s, r);
    CanSettle(s, t, e, r, s1, w);
    acts := ApplyRunAt(s1, [], s1, w, pl);
    ApplyFacts(s1, w, pl);
    DueThere(s1, w, r);
    s' := Applied(s1, w, pl);
    hide Applied;
    DueWins(s.base[r], s.history, r, s.stores[r].table, s'.stores[r].table, s.txs[w].parts[r], s.txs[w].phase.epoch);
  }

  lemma SettledFirst(s: System, t: TxId, e: Epoch, r: RangeId, s1: System) returns (acts: seq<Action>, s': System)
    requires Continues(s, s1, t, e) && r in s.stores && ServingPlace(s, r) in s.places && r in s.base
    requires Due(s1, r) == Due(s, r)
    ensures Leads(s1, acts, s') && Weak(s') && DownKnown(s') && r in s'.stores && ServingPlace(s', r) in s'.places
    ensures Due(s', r) == None
    ensures s'.history == s1.history && s'.base == s.base
    ensures forall k :: Records.Get(s'.stores[r].table, k) == ValueAfter(s.base[r], s.history, r, k)
  {
    hide Leads, Inv, Weak, Order, Due, Current, DownKnown, Records.WellFormed;
    if Due(s, r).Some? {
      acts, s' := SettleFirst(s, t, e, r, s1);
    } else {
      Nowhere(s1);
      RangeFacts(s, r);
      AsStored(s.base[r], s.history, r, s.stores[r].table);
      acts, s' := [], s1;
    }
  }

  /** A decision where the vote does not stand and the writes change something. */
  lemma ChangeBreaks(s: System, t: TxId, e: Epoch, r: RangeId, s1: System, k: Bytes)
    returns (acts: seq<Action>, s': System)
    requires Continues(s, s1, t, e) && s.txs[t].votes.Keys == s.txs[t].parts.Keys
    requires r in s.txs[t].parts && r in s.stores && r in s.base && !VoteStands(s, t, r)
    requires Overlays.Buffered(s.txs[t].parts[r], k)
    requires Wrote(s.txs[t].parts[r], k) != ValueAfter(s.base[r], s.history, r, k)
    ensures Leads(s1, acts, s') && !AllFit(s')
  {
    hide Leads, Weak, Order, Data, DownKnown;
    RangeAt(s, r);
    OtherVote(s, t, e, r);
    SameDue(s, t, e, r);
    ValueAppend(s.base[r], s.history, Entry(t, e, s.txs[t].parts), r, k);
    hide Due, AllFit;
    var s2: System;
    acts, s2 := SettledFirst(s, t, e, r, s1);
    hide Continues;
    acts, s' := StaleBreaks(s1, acts, s2, r, k);
  }

  lemma SameDue(s: System, t: TxId, e: Epoch, r: RangeId)
    requires t in s.txs && r in s.stores && ServingPlace(s, r) in s.places
    ensures Due(AfterDecide(s, t, e), r) == Due(WithCommit(s, t, e), r)
  {
  }

  lemma DisturbanceBreaks(s: System, t: TxId, e: Epoch, r: RangeId, s1: System) returns (acts: seq<Action>, s': System)
    requires Continues(s, s1, t, e) && s.txs[t].votes.Keys == s.txs[t].parts.Keys
    requires r in s.txs[t].parts && r in s.stores && r in s.base && !VoteStands(s, t, r)
    requires Disturbs(s.base[r], s.history, r, s.txs[t].parts[r])
    ensures Leads(s1, acts, s') && !AllFit(s')
  {
    hide Leads, Inv, Weak, Order, DownKnown;
    var p := s.txs[t].parts[r];
    if x :| x in p.seen && x.1 != ValueAfter(s.base[r], s.history, r, x.0) {
      Nowhere(s1);
      Misfit(s.base, s.history, Entry(t, e, s.txs[t].parts), r, x);
      acts, s' := [], s1;
      assert s'.history == s.history + [Entry(t, e, s.txs[t].parts)];
    } else {
      var k :| Overlays.Buffered(p, k) && Wrote(p, k) != ValueAfter(s.base[r], s.history, r, k);
      acts, s' := ChangeBreaks(s, t, e, r, s1, k);
    }
  }

  lemma DecisionBreaks(s: System, t: TxId, readEpoch: Epoch, e: Epoch) returns (acts: seq<Action>, s': System)
    requires Inv(s) && Enabled(s, Decide(t, readEpoch, e)) && Harms(s, Decide(t, readEpoch, e))
    ensures Leads(Apply(s, Decide(t, readEpoch, e)), acts, s') && !AllFit(s')
  {
    hide Leads, Inv, AllFit, Continues, Disturbs, Commits, Apply, IsCommitEpoch;
    var s1 := DecisionContinues(s, t, readEpoch, e);
    var r :| r in s.txs[t].votes && r in s.txs[t].parts && r in s.stores && r in s.base && !VoteStands(s, t, r)
             && Disturbs(s.base[r], s.history, r, s.txs[t].parts[r]);
    acts, s' := DisturbanceBreaks(s, t, e, r, s1);
  }

  lemma DecisionContinues(s: System, t: TxId, readEpoch: Epoch, e: Epoch) returns (s1: System)
    requires Inv(s) && Enabled(s, Decide(t, readEpoch, e)) && Commits(s, t, e)
    ensures s1 == Apply(s, Decide(t, readEpoch, e)) && Continues(s, s1, t, e)
  {
    hide Weak, Order, Data;
    var a := Decide(t, readEpoch, e);
    s1 := Apply(s, a);
    StepWeak(s, a);
    StepOrder(s, a);
    StepDown(s, a);
    assert s1 == AfterDecide(s, t, e);
  }

  // ---------------------------------------------------------------- the condition is exact

  lemma LoadBreaks(s: System, r: RangeId, epoch: Epoch, n: nat) returns (acts: seq<Action>, s': System)
    requires Inv(s) && Enabled(s, LoadRange(r, epoch, n)) && r in s.base && ServingPlace(s, r) in s.places
    requires Needed(s, r)
    ensures Leads(Apply(s, LoadRange(r, epoch, n)), acts, s') && !AllFit(s')
  {
    hide Inv, Leads, AllFit, CutOff, Needed, Records.WellFormed, Current, LoadStep;
    RangeFacts(s, r);
    LoadCuts(s, r, epoch, n);
    acts, s' := CutOffBreaks(s, LoadStep(s, r, epoch, n), r);
  }

  lemma UnloadBreaks(s: System, r: RangeId, m: nat) returns (acts: seq<Action>, s': System)
    requires Inv(s) && Enabled(s, UnloadRange(r, m)) && r in s.base && ServingPlace(s, r) in s.places && Needed(s, r)
    requires m == s.stores[r].serving
    ensures Leads(Apply(s, UnloadRange(r, m)), acts, s') && !AllFit(s')
  {
    hide Inv, Leads, AllFit, CutOff, Needed, Records.WellFormed, Current;
    RangeFacts(s, r);
    UnloadCuts(s, r, m);
    acts, s' := CutOffBreaks(s, Unloading(s, (r, m)), r);
  }

  /**
   * Every harmful step admits a continuation, itself without harm, in which some committed transaction's reads do
   * not fit.
   */
  lemma HarmBreaks(s: System, a: Action) returns (acts: seq<Action>, s': System)
    requires Inv(s) && Enabled(s, a) && Harms(s, a)
    ensures Leads(Apply(s, a), acts, s') && !AllFit(s')
  {
    hide Inv, Leads, AllFit, Needed, Apply, Disturbs;
    match a
    case Decide(t, readEpoch, e) => acts, s' := DecisionBreaks(s, t, readEpoch, e);
    case LoadRange(r, epoch, n) => acts, s' := LoadBreaks(s, r, epoch, n);
    case UnloadRange(r, m) => acts, s' := UnloadBreaks(s, r, m);
  }

  /**
   * From any state reached without harm, a step keeps decision order a serial order, in every run that goes
   * on without harm, if and only if it does no harm itself.
   */
  lemma StepSerializableIff(s: System, a: Action)
    requires Inv(s) && Enabled(s, a)
    ensures !Harms(s, a) <==> forall acts, s' :: Leads(Apply(s, a), acts, s') ==> AllFit(s')
  {
    hide Inv, Enabled, Apply, AllFit, Harms;
    if Harms(s, a) {
      var acts, s' := HarmBreaks(s, a);
    } else {
      StepInv(s, a);
      forall acts, s' | Leads(Apply(s, a), acts, s') ensures AllFit(s') {
        RunInv(Apply(s, a), acts);
        InvFits(s');
      }
    }
  }

  lemma InvFits(s: System)
    requires Inv(s)
    ensures AllFit(s)
  {
    hide Weak, Order, AllServed, AllPaired, AllFit;
  }
}
