/**
 * The condition of the Global Epoch Invariant is needed: whenever the counter outruns a majority, reads
 * that follow can fall two epochs apart. A run in which it does: a publisher acknowledges an epoch after
 * a failed compare-exchange.
 */
module EpochLoss {
  import opened Base
  import opened Epochs

  // ---------------------------------------------------------------- runs, step by step

  ghost predicate Reaches(s: State, acts: seq<Action>, s': State) {
    IsSafeRun(s, acts) && IsRun(s, acts) && After(s, acts) == s'
  }

  lemma Nowhere(s: State)
    ensures Reaches(s, [], s)
  {
  }

  lemma {:induction false} Then(s: State, acts: seq<Action>, s1: State, a: Action)
    requires Reaches(s, acts, s1) && Enabled(s1, a) && !Outruns(s1, a)
    ensures Reaches(s, acts + [a], Apply(s1, a))
    decreases |acts|
  {
    hide Enabled, Apply, Outruns;
    var all := acts + [a];
    if acts == [] {
      assert s1 == s && all[0] == a && all[1..] == [];
      Nowhere(Apply(s, a));
    } else {
      Then(Apply(s, acts[0]), acts[1..], s1, a);
      assert all[0] == acts[0] && all[1..] == acts[1..] + [a];
    }
  }

  /** Everything but publishers, calls and acknowledgements is the same. */
  ghost predicate OnlyPubs(s: State, s': State) {
    s' == s.(pubs := s'.pubs, calls := s'.calls, acked := s'.acked)
  }

  /** The publisher can be brought to epoch x, which has been published. */
  ghost predicate CanLift(s: State, p: PubId, x: Epoch) {
    && p in s.pubs && x in s.rounds && s.counter > 0
    && (if s.pubs[p].val > 0 then s.pubs[p].val <= x && s.pubs[p].sync.None?
        else if s.pubs[p].sync.Some? then 0 < s.pubs[p].sync.value <= x
        else s.counter <= x)
  }

  /** A publisher that does not know its epoch learns the value it has read, or the counter. */
  lemma Learn(s0: State, before: seq<Action>, s: State, p: PubId, x: Epoch) returns (acts: seq<Action>, s': State)
    requires Reaches(s0, before, s) && CanLift(s, p, x)
    ensures Reaches(s0, acts, s') && CanLift(s', p, x) && OnlyPubs(s, s') && s'.pubs[p].val > 0
    ensures s'.pubs == s.pubs[p := s'.pubs[p]] && s'.calls == s.calls && s'.acked == s.acked
  {
    hide Reaches;
    acts, s' := before, s;
    if s'.pubs[p].val == 0 {
      if s'.pubs[p].sync.None? {
        Then(s0, acts, s', SyncRead(p));
        acts, s' := acts + [SyncRead(p)], Apply(s', SyncRead(p));
      }
      Then(s0, acts, s', SyncStore(p));
      acts, s' := acts + [SyncStore(p)], Apply(s', SyncStore(p));
    }
  }

  /** A request to publish x, however late, brings it there. */
  lemma Lift(s0: State, before: seq<Action>, s: State, p: PubId, x: Epoch) returns (acts: seq<Action>, s': State)
    requires Reaches(s0, before, s) && CanLift(s, p, x)
    ensures Reaches(s0, acts, s') && OnlyPubs(s, s') && s'.pubs == s.pubs[p := Pub(x, None)]
    ensures s'.calls <= s.calls && s'.acked == s.acked + {(p, x)}
  {
    var s1: State;
    acts, s1 := Learn(s0, before, s, p, x);
    hide Reaches;
    var c := Call(p, x, s1.pubs[p].val);
    Then(s0, acts, s1, LoadEpoch(p, x));
    var s2 := Apply(s1, LoadEpoch(p, x));
    Then(s0, acts + [LoadEpoch(p, x)], s2, ExchangeEpoch(c));
    acts, s' := acts + [LoadEpoch(p, x)] + [ExchangeEpoch(c)], Apply(s2, ExchangeEpoch(c));
  }

  lemma {:induction false} LiftAll(s0: State, before: seq<Action>, s: State, m: set<PubId>, x: Epoch)
    returns (acts: seq<Action>, s': State)
    requires Reaches(s0, before, s) && forall p :: p in m ==> CanLift(s, p, x)
    ensures Reaches(s0, acts, s') && OnlyPubs(s, s') && s'.pubs.Keys == s.pubs.Keys
    ensures forall p :: p in s.pubs ==> s'.pubs[p] == if p in m then Pub(x, None) else s.pubs[p]
    decreases m
  {
    hide Reaches;
    if p :| p in m {
      var s1: State;
      acts, s1 := Lift(s0, before, s, p, x);
      acts, s' := LiftAll(s0, acts, s1, m - {p}, x);
    } else {
      acts, s' := before, s;
    }
  }

  lemma {:induction false} Replies(s0: State, before: seq<Action>, s: State, id: nat, m: set<PubId>, v: Epoch)
    returns (acts: seq<Action>, s': State)
    requires Reaches(s0, before, s) && id in s.readers && s.readers[id].set_ in s.sets && v > 0
    requires m <= s.sets[s.readers[id].set_] && m !! s.readers[id].replies.Keys
    requires forall p :: p in m ==> p in s.pubs && s.pubs[p].val == v
    ensures Reaches(s0, acts, s') && id in s'.readers && s' == s.(readers := s.readers[id := s'.readers[id]])
    ensures var r, r' := s.readers[id], s'.readers[id]; r' == r.(replies := r.replies + map p | p in m :: v)
    decreases m
  {
    hide Reaches;
    if p :| p in m {
      Then(s0, before, s, Reply(id, p));
      acts, s' := Replies(s0, before + [Reply(id, p)], Apply(s, Reply(id, p)), id, m - {p}, v);
      var r := s.readers[id];
      assert r.replies[p := v] + (map q | q in m - {p} :: v) == r.replies + map q | q in m :: v;
    } else {
      acts, s' := before, s;
      assert s.readers[id].replies + (map p | p in m :: v) == s.readers[id].replies;
    }
  }

  lemma {:induction false} Above(ids: set<nat>) returns (b: nat)
    ensures forall i :: i in ids ==> i < b
    decreases ids
  {
    b := 0;
    if i :| i in ids {
      var c := Above(ids - {i});
      b := if c <= i then i + 1 else c;
      assert forall j :: j in ids ==> j == i || j in ids - {i};
    }
  }

  /** A read of a set in which a majority answers v. */
  lemma Read(s0: State, before: seq<Action>, s: State, k: SetId, m: set<PubId>, v: Epoch)
    returns (acts: seq<Action>, s': State)
    requires Reaches(s0, before, s) && k in s.sets && Majority(s.sets[k], m) && v > 0
    requires forall p :: p in m ==> p in s.pubs && s.pubs[p].val == v
    ensures Reaches(s0, acts, s') && s' == s.(log := s.log + [Done(k, v, |s.log|)])
  {
    var id := Above(s.readers.Keys);
    hide Reaches;
    Then(s0, before, s, StartRead(id, k));
    var s1 := Apply(s, StartRead(id, k));
    acts, s1 := Replies(s0, before + [StartRead(id, k)], s1, id, m, v);
    assert Voters(s1.readers[id], v) == m;
    Then(s0, acts, s1, FinishRead(id, v));
    acts, s' := acts + [FinishRead(id, v)], Apply(s1, FinishRead(id, v));
    assert s'.readers == s.readers;
  }

  // ---------------------------------------------------------------- the condition is exact

  lemma SplitLifts(s: State, s1: State, e: Epoch, mk: set<PubId>)
    requires Inv(s) && s.counter == e && s1 == s.(counter := e + 1) && mk <= Laggards(s.pubs, e) && mk != {}
    ensures e >= 2 && forall p :: p in mk ==> CanLift(s1, p, e - 1)
  {
    hide Split, GlobalEpochInvariant, ReadersOk, LogOk;
    var q :| q in mk;
    assert q in Laggards(s.pubs, e) && PubOk(s.pubs[q], s.counter);
    forall p | p in mk ensures CanLift(s1, p, e - 1) {
      assert p in Laggards(s.pubs, e) && PubOk(s.pubs[p], s.counter);
    }
  }

  /**
   * From any state safely reached, once the counter outruns a majority there is a continuation, itself
   * without any further breach, in which one read returns e+1 and the next one e-1.
   */
  lemma OutrunBreaks(s: State, e: Epoch) returns (acts: seq<Action>, s': State)
    requires Inv(s) && Enabled(s, Advance(e)) && Outruns(s, Advance(e))
    ensures Reaches(Apply(s, Advance(e)), acts, s') && !GlobalEpochInvariant(s'.log)
  {
    var j, k, mj, mk :| SplitsAt(s.sets, s.pubs, e, j, k, mj, mk);
    var s0 := Apply(s, Advance(e));
    SplitLifts(s, s0, e, mk);
    hide Split, LogOk, ReadersOk, Reaches, GlobalEpochInvariant;
    assert forall p :: p in mj ==> p in s0.pubs && PubOk(s0.pubs[p], s0.counter);
    hide Inv;
    var s1: State;
    acts, s1 := LiftBoth(s0, mk, e - 1, mj);
    acts, s' := ReadTwice(s0, acts, s1, j, mj, e + 1, k, mk, e - 1);
  }

  /** One majority is brought to an old epoch, another one to the present one. */
  lemma LiftBoth(s: State, mk: set<PubId>, x: Epoch, mj: set<PubId>) returns (acts: seq<Action>, s': State)
    requires mj !! mk && s.counter > 0 && forall p :: p in mk ==> CanLift(s, p, x)
    requires forall p :: p in mj ==> p in s.pubs && PubOk(s.pubs[p], s.counter)
    ensures Reaches(s, acts, s') && s'.sets == s.sets && s'.readers == s.readers && s'.log == s.log
    ensures forall p :: p in mk ==> p in s'.pubs && s'.pubs[p].val == x
    ensures forall p :: p in mj ==> p in s'.pubs && s'.pubs[p].val == s.counter
  {
    Nowhere(s);
    hide Reaches;
    var s1: State;
    acts, s1 := LiftAll(s, [], s, mk, x);
    Then(s, acts, s1, StartRound);
    var s2 := Apply(s1, StartRound);
    forall p | p in mj ensures CanLift(s2, p, s.counter) { assert s2.pubs[p] == s.pubs[p]; }
    acts, s' := LiftAll(s, acts + [StartRound], s2, mj, s.counter);
  }

  /** Two reads, one after the other, that return epochs two apart. */
  lemma ReadTwice(s0: State, before: seq<Action>, s: State, j: SetId, mj: set<PubId>, v: Epoch, k: SetId,
      mk: set<PubId>, w: Epoch)
    returns (acts: seq<Action>, s': State)
    requires Reaches(s0, before, s) && j in s.sets && k in s.sets && Majority(s.sets[j], mj) && Majority(s.sets[k], mk)
    requires 0 < w < v - 1
    requires forall p :: p in mj ==> p in s.pubs && s.pubs[p].val == v
    requires forall p :: p in mk ==> p in s.pubs && s.pubs[p].val == w
    ensures Reaches(s0, acts, s') && !GlobalEpochInvariant(s'.log)
  {
    hide Reaches, Majority;
    var s1: State;
    acts, s1 := Read(s0, before, s, j, mj, v);
    acts, s' := Read(s0, acts, s1, k, mk, w);
    assert s'.log[|s.log|] == Done(j, v, |s.log|) && s'.log[|s.log| + 1] == Done(k, w, |s.log| + 1);
  }

  /** A step keeps the Global Epoch Invariant of all safe continuations if and only if it does not outrun a majority. */
  lemma StepKeepsInvariantIff(s: State, a: Action)
    requires Inv(s) && Enabled(s, a)
    ensures !Outruns(s, a) <==>
            forall acts, s' :: Reaches(Apply(s, a), acts, s') ==> GlobalEpochInvariant(s'.log)
  {
    if Outruns(s, a) {
      var acts, s' := OutrunBreaks(s, a.e);
    } else {
      StepInv(s, a);
      forall acts, s' | Reaches(Apply(s, a), acts, s') ensures GlobalEpochInvariant(s'.log) {
        RunInv(Apply(s, a), acts);
      }
    }
  }

  // ---------------------------------------------------------------- a run that outruns

  const A: SetId := 0
  const B: SetId := 1
  const SETS: map<SetId, set<PubId>> := map[A := {1, 2, 3}, B := {4}]

  function Known(e: Epoch): Pub {
    Pub(e, None)
  }

  function Pubs(e1: Epoch, e2: Epoch, e3: Epoch, e4: Epoch): map<PubId, Pub> {
    map[1 := Known(e1), 2 := Known(e2), 3 := Known(e3), 4 := Known(e4)]
  }

  const START: State := State(0, SETS, Pubs(0, 0, 0, 0), {}, {}, {}, map[], [])

  lemma MajorityOf(k: SetId, q: set<PubId>, some: set<PubId>)
    requires k in SETS && some <= q <= SETS[k] && |some| == (if k == A then 2 else 1)
    ensures Majority(SETS[k], q)
  {
    Subset(some, q);
    assert |{1, 2, 3}| == 3 && |{4}| == 1;
  }

  /** No set has a majority that is behind as long as only publisher 1 is. */
  lemma NoSplit(pubs: map<PubId, Pub>, e: Epoch)
    requires Laggards(pubs, e) <= {1}
    ensures !Split(SETS, pubs, e)
  {
    assert |{1, 2, 3}| == 3 && |{4}| == 1;
    forall j, k, mj, mk ensures !SplitsAt(SETS, pubs, e, j, k, mj, mk) {
      if k in SETS && mk <= {1} {
        Subset(mk, {1});
        assert !Majority(SETS[k], mk);
      }
    }
  }

  /** The counter may advance past e once two publishers of A and the one of B acknowledged it. */
  lemma CanAdvance(s: State, e: Epoch, p: PubId, q: PubId)
    requires s.sets == SETS && e in s.rounds && p in {1, 2, 3} && q in {1, 2, 3} && p != q
    requires {(p, e), (q, e), (4, e)} <= s.acked
    ensures Enabled(s, Advance(e))
  {
    forall k | k in s.sets ensures Majority(s.sets[k], Ackers(s.sets[k], s.acked, e)) {
      MajorityOf(k, Ackers(s.sets[k], s.acked, e), if k == A then {p, q} else {4});
    }
  }

  /** A round acknowledged by publishers 2, 3 and 4 only. */
  lemma Round(before: seq<Action>, s: State, e1: Epoch, x: Epoch) returns (acts: seq<Action>, s': State)
    requires Reaches(START, before, s) && s.sets == SETS && s.calls == {} && 0 < s.counter && x <= s.counter
    requires s.pubs == Pubs(e1, x, x, x)
    ensures Reaches(START, acts, s') && var e := s.counter;
                                        && s'.pubs == Pubs(e1, e, e, e) && s'.rounds == s.rounds + {e} && s'.calls == {}
                                        && s' == s.(counter := e + 1, pubs := s'.pubs, rounds := s'.rounds,
                                                    acked := s'.acked)
  {
    var e := s.counter;
    hide Reaches;
    Then(START, before, s, StartRound);
    acts, s' := before + [StartRound], Apply(s, StartRound);
    acts, s' := Lift(START, acts, s', 2, e);
    acts, s' := Lift(START, acts, s', 3, e);
    acts, s' := Lift(START, acts, s', 4, e);
    assert s'.pubs == Pubs(e1, e, e, e);
    CanAdvance(s', e, 2, 3);
    NoSplit(s'.pubs, e);
    Then(START, acts, s', Advance(e));
    acts, s' := acts + [Advance(e)], Apply(s', Advance(e));
  }

  /** After two rounds the counter is 3 and publisher 1 still has epoch 1. */
  lemma TwoRounds() returns (acts: seq<Action>, s: State)
    ensures Reaches(START, acts, s) && s.pubs == Pubs(1, 2, 2, 2)
    ensures s.counter == 3 && {1, 2} <= s.rounds && s.sets == SETS && s.calls == {}
  {
    Nowhere(START);
    hide Reaches;
    Then(START, [], START, Initialize);
    acts, s := [] + [Initialize], Apply(START, Initialize);
    Then(START, acts, s, StartRound);
    acts, s := acts + [StartRound], Apply(s, StartRound);
    acts, s := Lift(START, acts, s, 1, 1);
    assert s.pubs == Pubs(1, 0, 0, 0);
    acts, s := Round(acts, s, 1, 0);
    acts, s := Round(acts, s, 1, 1);
  }

  /** Two requests race at publisher 1: the one for epoch 3 loses and is acknowledged all the same. */
  lemma Race(before: seq<Action>, s: State) returns (acts: seq<Action>, s': State)
    requires Reaches(START, before, s) && s.pubs == Pubs(1, 2, 2, 2) && s.calls == {} && {2, 3} <= s.rounds
    ensures Reaches(START, acts, s') && s'.pubs == Pubs(2, 2, 2, 2) && s'.calls == {} && (1, 3) in s'.acked
    ensures OnlyPubs(s, s')
  {
    hide Reaches;
    var c2, c3 := Call(1, 2, 1), Call(1, 3, 1);
    Then(START, before, s, LoadEpoch(1, 2));
    acts, s' := before + [LoadEpoch(1, 2)], Apply(s, LoadEpoch(1, 2));
    Then(START, acts, s', LoadEpoch(1, 3));
    acts, s' := acts + [LoadEpoch(1, 3)], Apply(s', LoadEpoch(1, 3));
    assert s'.calls == {c2, c3};
    Then(START, acts, s', ExchangeEpoch(c2));
    acts, s' := acts + [ExchangeEpoch(c2)], Apply(s', ExchangeEpoch(c2));
    assert s'.calls == {c3} && s'.pubs == Pubs(2, 2, 2, 2);
    Then(START, acts, s', ExchangeEpoch(c3));
    acts, s' := acts + [ExchangeEpoch(c3)], Apply(s', ExchangeEpoch(c3));
    assert s'.calls == {} && s'.pubs == Pubs(2, 2, 2, 2);
  }

  lemma RaceOutruns(s: State)
    requires s.pubs == Pubs(2, 3, 2, 3) && s.sets == SETS && s.counter == 3
    ensures Outruns(s, Advance(3))
  {
    MajorityOf(A, {1, 3}, {1, 3});
    MajorityOf(B, {4}, {4});
    assert {1, 3} <= Laggards(s.pubs, 3);
    assert SplitsAt(s.sets, s.pubs, 3, B, A, {4}, {1, 3});
  }

  /**
   * The code lets the counter outrun a majority: a run up to the step that does, and a continuation
   * that breaks the Global Epoch Invariant.
   */
  lemma LossBreaksInvariant() returns (acts: seq<Action>, s: State, more: seq<Action>, s': State)
    ensures Initial(START) && Reaches(START, acts, s) && Enabled(s, Advance(3)) && Outruns(s, Advance(3))
    ensures Reaches(Apply(s, Advance(3)), more, s') && !GlobalEpochInvariant(s'.log)
  {
    acts, s := TwoRounds();
    InitialInv(START);
    assert Reaches(START, acts, s);
    acts, s := RacedRound(acts, s);
    RunInv(START, acts);
    hide Reaches, Inv, Outruns, GlobalEpochInvariant;
    more, s' := OutrunBreaks(s, 3);
  }

  lemma RacedRound(before: seq<Action>, s: State) returns (acts: seq<Action>, s': State)
    requires Reaches(START, before, s) && s.pubs == Pubs(1, 2, 2, 2) && s.counter == 3 && {1, 2} <= s.rounds
    requires s.sets == SETS && s.calls == {}
    ensures Reaches(START, acts, s') && Enabled(s', Advance(3)) && Outruns(s', Advance(3))
  {
    hide Reaches;
    Then(START, before, s, StartRound);
    acts, s' := before + [StartRound], Apply(s, StartRound);
    acts, s' := Race(acts, s');
    acts, s' := Lift(START, acts, s', 2, 3);
    acts, s' := Lift(START, acts, s', 4, 3);
    assert s'.pubs == Pubs(2, 3, 2, 3);
    CanAdvance(s', 3, 1, 2);
    RaceOutruns(s');
  }
}
