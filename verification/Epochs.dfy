/**
 * The epoch service: epoch servers advancing one stored counter (epoch/src/server.rs), publishers in
 * several sets (epoch_publisher/src/server.rs) and readers (epoch_reader/src/reader.rs).
 */
module Epochs {
  import opened Base

  type PubId = nat
  type SetId = nat

  // ---------------------------------------------------------------- quorums

  /** At least half, rounded down, plus one. */
  ghost predicate Majority(members: set<PubId>, q: set<PubId>) {
    q <= members && |q| >= |members| / 2 + 1
  }

  lemma MajoritiesMeet(members: set<PubId>, a: set<PubId>, b: set<PubId>) returns (p: PubId)
    requires Majority(members, a) && Majority(members, b)
    ensures p in a && p in b
  {
    if a * b == {} {
      assert |a + b| == |a| + |b|;
      Subset(a + b, members);
    }
    p :| p in a * b;
  }

  lemma {:induction false} Subset(a: set<PubId>, b: set<PubId>)
    requires a <= b
    ensures |a| <= |b|
  {
    assert b == a + (b - a);
  }

  // ---------------------------------------------------------------- state

  /** A publisher: its epoch, 0 while unknown, and the counter value read by a restart that has not stored it yet. */
  datatype Pub = Pub(val: Epoch, sync: Option<Epoch>)

  /** A SetEpoch call between its load of the publisher's epoch and its compare-exchange. */
  datatype Call = Call(p: PubId, e: Epoch, loaded: Epoch)

  /** A read in progress: the replies so far and, as history, the counter and the publishers when it started. */
  datatype Reader = Reader(set_: SetId, replies: map<PubId, Epoch>, since: nat, base: Epoch, was: map<PubId, Pub>)

  /** A finished read, with the number of reads that had finished when it started. */
  datatype Done = Done(set_: SetId, value: Epoch, since: nat)

  datatype State = State(
    counter: Epoch,
    sets: map<SetId, set<PubId>>,
    pubs: map<PubId, Pub>,
    rounds: set<Epoch>,
    calls: set<Call>,
    acked: set<(PubId, Epoch)>,
    readers: map<nat, Reader>,
    log: seq<Done>)

  datatype Action =
    | Initialize
    | StartRound
    | LoadEpoch(p: PubId, e: Epoch)
    | ExchangeEpoch(c: Call)
    | Advance(e: Epoch)
    | Restart(p: PubId)
    | SyncRead(p: PubId)
    | SyncStore(p: PubId)
    | StartRead(id: nat, set_: SetId)
    | Reply(id: nat, p: PubId)
    | FinishRead(id: nat, v: Epoch)

  ghost predicate Enabled(s: State, a: Action) {
    match a
    case Initialize => true
    case StartRound => s.counter > 0
    // A request to publish e, however delayed, reaches a publisher that knows its epoch.
    case LoadEpoch(p, e) => p in s.pubs && s.pubs[p].val > 0 && e in s.rounds
    case ExchangeEpoch(c) => c in s.calls && c.p in s.pubs
    // Every set has a majority of publishers that acknowledged e.
    case Advance(e) =>
      e in s.rounds && forall k :: k in s.sets ==> Majority(s.sets[k], Ackers(s.sets[k], s.acked, e))
    case Restart(p) => p in s.pubs
    case SyncRead(p) => p in s.pubs && s.pubs[p].val == 0 && s.counter > 0
    case SyncStore(p) => p in s.pubs && s.pubs[p].val == 0 && s.pubs[p].sync.Some?
    case StartRead(id, k) => id !in s.readers && k in s.sets
    case Reply(id, p) =>
      id in s.readers && s.readers[id].set_ in s.sets && p in s.sets[s.readers[id].set_]
      && p in s.pubs && s.pubs[p].val > 0 && p !in s.readers[id].replies
    case FinishRead(id, v) =>
      id in s.readers && s.readers[id].set_ in s.sets
      && Majority(s.sets[s.readers[id].set_], Voters(s.readers[id], v))
  }

  function Ackers(members: set<PubId>, acked: set<(PubId, Epoch)>, e: Epoch): set<PubId> {
    set p | p in members && (p, e) in acked
  }

  function Voters(r: Reader, v: Epoch): set<PubId> {
    set p | p in r.replies && r.replies[p] == v
  }

  /** The compare-exchange succeeds if the epoch is still the one loaded; the call is acknowledged either way. */
  function Exchange(pub: Pub, e: Epoch, loaded: Epoch): Pub {
    if e > loaded && pub.val == loaded then pub.(val := e) else pub
  }

  function Apply(s: State, a: Action): State
    requires Enabled(s, a)
  {
    match a
    case Initialize => if s.counter == 0 then s.(counter := 1) else s
    case StartRound => s.(rounds := s.rounds + {s.counter})
    case LoadEpoch(p, e) => s.(calls := s.calls + {Call(p, e, s.pubs[p].val)})
    case ExchangeEpoch(c) =>
      s.(calls := s.calls - {c},
         pubs := s.pubs[c.p := Exchange(s.pubs[c.p], c.e, c.loaded)],
         acked := s.acked + {(c.p, c.e)})
    case Advance(e) => if s.counter == e then s.(counter := e + 1) else s
    case Restart(p) =>
      s.(pubs := s.pubs[p := Pub(0, None)], calls := set c | c in s.calls && c.p != p)
    case SyncRead(p) => s.(pubs := s.pubs[p := Pub(0, Some(s.counter))])
    case SyncStore(p) => s.(pubs := s.pubs[p := Pub(s.pubs[p].sync.value, None)])
    case StartRead(id, k) => s.(readers := s.readers[id := Reader(k, map[], |s.log|, s.counter, s.pubs)])
    case Reply(id, p) =>
      var r := s.readers[id];
      s.(readers := s.readers[id := r.(replies := r.replies[p := s.pubs[p].val])])
    case FinishRead(id, v) =>
      var r := s.readers[id];
      s.(readers := s.readers - {id}, log := s.log + [Done(r.set_, v, r.since)])
  }

  // ---------------------------------------------------------------- lagging publishers

  /** The publisher may still answer with an epoch below x without learning anything new. */
  predicate Lags(pub: Pub, x: int) {
    if pub.val > 0 then pub.val < x else pub.sync.Some? && pub.sync.value < x
  }

  function Laggards(pubs: map<PubId, Pub>, x: int): set<PubId> {
    set p | p in pubs && Lags(pubs[p], x)
  }

  /** A majority of set k lags behind x and none of it is in a certain majority of set j. */
  ghost predicate SplitsAt(sets: map<SetId, set<PubId>>, pubs: map<PubId, Pub>, x: int, j: SetId, k: SetId,
      mj: set<PubId>, mk: set<PubId>) {
    j in sets && k in sets && Majority(sets[j], mj) && Majority(sets[k], mk) && mj !! mk && mk <= Laggards(pubs, x)
  }

  ghost predicate Split(sets: map<SetId, set<PubId>>, pubs: map<PubId, Pub>, x: int) {
    exists j, k, mj, mk :: SplitsAt(sets, pubs, x, j, k, mj, mk)
  }

  /** The counter passes e while a majority of one set, outside a majority of another, is still behind e. */
  ghost predicate Outruns(s: State, a: Action) {
    a.Advance? && s.counter == a.e && Split(s.sets, s.pubs, a.e)
  }

  // ---------------------------------------------------------------- the invariant

  /** A majority of the set is not behind v. */
  ghost predicate Attained(members: set<PubId>, pubs: map<PubId, Pub>, v: int) {
    exists m :: Majority(members, m) && m !! Laggards(pubs, v)
  }

  /** Whoever lags behind an epoch up to x now did so before. */
  ghost predicate Follows(pubs: map<PubId, Pub>, pubs': map<PubId, Pub>, x: int) {
    pubs'.Keys == pubs.Keys && forall y :: y <= x ==> Laggards(pubs', y) <= Laggards(pubs, y)
  }

  ghost predicate PubOk(pub: Pub, counter: Epoch) {
    pub.val <= counter && (pub.sync.Some? ==> pub.val == 0 && 0 < pub.sync.value <= counter)
  }

  ghost predicate ReplyOk(pubs: map<PubId, Pub>, was: map<PubId, Pub>, base: Epoch, counter: Epoch, p: PubId,
      v: Epoch) {
    p in pubs && v <= counter && p !in Laggards(pubs, v) && (v >= base || p in Laggards(was, v + 1))
  }

  ghost predicate SeenOk(sets: map<SetId, set<PubId>>, r: Reader, d: Done) {
    d.set_ in sets && d.value <= r.base && Attained(sets[d.set_], r.was, d.value)
  }

  ghost predicate ReaderOk(sets: map<SetId, set<PubId>>, counter: Epoch, pubs: map<PubId, Pub>, log: seq<Done>,
      r: Reader) {
    && r.set_ in sets && r.since <= |log| && r.base <= counter
    && r.replies.Keys <= sets[r.set_]
    && Follows(r.was, pubs, r.base)
    && (forall p :: p in r.replies ==> ReplyOk(pubs, r.was, r.base, counter, p, r.replies[p]))
    && !Split(sets, r.was, r.base - 1)
    && (forall i :: 0 <= i < r.since ==> SeenOk(sets, r, log[i]))
  }

  ghost predicate ReadersOk(s: State) {
    forall id :: id in s.readers ==> ReaderOk(s.sets, s.counter, s.pubs, s.log, s.readers[id])
  }

  ghost predicate DoneOk(sets: map<SetId, set<PubId>>, counter: Epoch, pubs: map<PubId, Pub>, i: nat, d: Done) {
    d.set_ in sets && d.value <= counter && d.since <= i && Attained(sets[d.set_], pubs, d.value)
  }

  ghost predicate LogOk(s: State) {
    forall i :: 0 <= i < |s.log| ==> DoneOk(s.sets, s.counter, s.pubs, i, s.log[i])
  }

  /** Every epoch below the counter was published; nothing above it is. */
  ghost predicate RoundsOk(s: State) {
    && (forall e :: e in s.rounds ==> 0 < e <= s.counter)
    && (forall e :: 0 < e < s.counter ==> e in s.rounds)
    && (forall c :: c in s.calls ==> c.e in s.rounds && c.loaded > 0)
  }

  ghost predicate PubsOk(s: State) {
    && (forall k :: k in s.sets ==> s.sets[k] <= s.pubs.Keys)
    && (forall p :: p in s.pubs ==> PubOk(s.pubs[p], s.counter))
  }

  /**
   * The Global Epoch Invariant: a read that starts after another returned e returns at least e-1, and
   * at least e if both read the same publisher set.
   */
  ghost predicate GlobalEpochInvariant(log: seq<Done>) {
    forall i, j :: 0 <= j < |log| && 0 <= i < log[j].since && i < |log| ==>
                     && log[i].value <= log[j].value + 1
                     && (log[i].set_ == log[j].set_ ==> log[i].value <= log[j].value)
  }

  ghost predicate Inv(s: State) {
    PubsOk(s) && RoundsOk(s) && !Split(s.sets, s.pubs, s.counter - 1) && LogOk(s) && ReadersOk(s)
    && GlobalEpochInvariant(s.log)
  }

  // ---------------------------------------------------------------- fewer and fewer lag

  lemma SplitMono(sets: map<SetId, set<PubId>>, pubs: map<PubId, Pub>, pubs': map<PubId, Pub>, x: int, x': int)
    requires Follows(pubs, pubs', x') && x' <= x && Split(sets, pubs', x')
    ensures Split(sets, pubs, x)
  {
    var j, k, mj, mk :| SplitsAt(sets, pubs', x', j, k, mj, mk);
    assert SplitsAt(sets, pubs, x, j, k, mj, mk) by { assert Laggards(pubs', x') <= Laggards(pubs, x'); }
  }

  lemma AttainedMono(members: set<PubId>, pubs: map<PubId, Pub>, pubs': map<PubId, Pub>, v: int)
    requires Follows(pubs, pubs', v) && Attained(members, pubs, v)
    ensures Attained(members, pubs', v)
  {
    var m :| Majority(members, m) && m !! Laggards(pubs, v);
    assert Laggards(pubs', v) <= Laggards(pubs, v);
    assert Majority(members, m) && m !! Laggards(pubs', v);
  }

  lemma FollowsTrans(a: map<PubId, Pub>, b: map<PubId, Pub>, c: map<PubId, Pub>, x: int, x': int)
    requires Follows(a, b, x) && Follows(b, c, x') && x <= x'
    ensures Follows(a, c, x)
  {
    hide Laggards;
    forall y | y <= x ensures Laggards(c, y) <= Laggards(a, y) {
      assert Laggards(c, y) <= Laggards(b, y) <= Laggards(a, y);
    }
  }

  lemma ReaderFollows(sets: map<SetId, set<PubId>>, counter: Epoch, pubs: map<PubId, Pub>, pubs': map<PubId, Pub>,
      log: seq<Done>, r: Reader)
    requires ReaderOk(sets, counter, pubs, log, r) && Follows(pubs, pubs', counter)
    ensures ReaderOk(sets, counter, pubs', log, r)
  {
    hide Split, SeenOk, Laggards;
    FollowsTrans(r.was, pubs, pubs', r.base, counter);
    forall p | p in r.replies ensures ReplyOk(pubs', r.was, r.base, counter, p, r.replies[p]) {
      assert ReplyOk(pubs, r.was, r.base, counter, p, r.replies[p]);
      assert Laggards(pubs', r.replies[p]) <= Laggards(pubs, r.replies[p]);
    }
  }

  /** Steps that only touch publishers, calls and acknowledgements, and let nobody fall behind. */
  lemma PublisherStep(s: State, s': State)
    requires Inv(s) && s' == s.(pubs := s'.pubs, calls := s'.calls, acked := s'.acked)
    requires Follows(s.pubs, s'.pubs, s.counter)
    requires forall p :: p in s'.pubs ==> PubOk(s'.pubs[p], s.counter)
    requires forall c :: c in s'.calls ==> c.e in s.rounds && c.loaded > 0
    ensures Inv(s')
  {
    assert Follows(s.pubs, s'.pubs, s.counter - 1);
    if Split(s.sets, s'.pubs, s.counter - 1) { SplitMono(s.sets, s.pubs, s'.pubs, s.counter - 1, s.counter - 1); }
    hide Split, GlobalEpochInvariant, PubOk, Attained;
    forall i | 0 <= i < |s.log| ensures DoneOk(s.sets, s.counter, s'.pubs, i, s.log[i]) {
      var d := s.log[i];
      assert DoneOk(s.sets, s.counter, s.pubs, i, d);
      assert Follows(s.pubs, s'.pubs, d.value);
      AttainedMono(s.sets[d.set_], s.pubs, s'.pubs, d.value);
    }
    hide Follows, ReaderOk, DoneOk;
    forall id | id in s.readers ensures ReaderOk(s.sets, s.counter, s'.pubs, s.log, s.readers[id]) {
      ReaderFollows(s.sets, s.counter, s.pubs, s'.pubs, s.log, s.readers[id]);
    }
  }

  /** One publisher changes and lags behind nothing up to x that it did not lag behind before. */
  lemma FollowsAt(pubs: map<PubId, Pub>, p: PubId, pub: Pub, x: int)
    requires p in pubs && forall y :: y <= x && Lags(pub, y) ==> Lags(pubs[p], y)
    ensures Follows(pubs, pubs[p := pub], x)
  {
  }

  /** Whatever a delayed request does to a publisher, and whether or not it loses its exchange, nobody falls behind. */
  lemma ExchangeStep(s: State, c: Call)
    requires Inv(s) && Enabled(s, ExchangeEpoch(c))
    ensures Inv(Apply(s, ExchangeEpoch(c)))
  {
    hide Split, GlobalEpochInvariant, ReadersOk, LogOk;
    var s' := Apply(s, ExchangeEpoch(c));
    assert PubOk(s.pubs[c.p], s.counter);
    FollowsAt(s.pubs, c.p, s'.pubs[c.p], s.counter);
    PublisherStep(s, s');
  }

  lemma LoadStep(s: State, p: PubId, e: Epoch)
    requires Inv(s) && Enabled(s, LoadEpoch(p, e))
    ensures Inv(Apply(s, LoadEpoch(p, e)))
  {
    hide Split, GlobalEpochInvariant, ReadersOk, LogOk, Laggards;
    PublisherStep(s, Apply(s, LoadEpoch(p, e)));
  }

  /** A restarted publisher answers nothing below the counter it will read; the store gives what it has read. */
  lemma RestartStep(s: State, a: Action)
    requires Inv(s) && Enabled(s, a) && (a.Restart? || a.SyncRead? || a.SyncStore?)
    ensures Inv(Apply(s, a))
  {
    hide Split, GlobalEpochInvariant, ReadersOk, LogOk;
    assert PubOk(s.pubs[a.p], s.counter);
    var s' := Apply(s, a);
    FollowsAt(s.pubs, a.p, s'.pubs[a.p], s.counter);
    PublisherStep(s, s');
  }

  // ---------------------------------------------------------------- the counter

  lemma ReaderCounterGrows(sets: map<SetId, set<PubId>>, counter: Epoch, counter': Epoch, pubs: map<PubId, Pub>,
      log: seq<Done>, r: Reader)
    requires ReaderOk(sets, counter, pubs, log, r) && counter <= counter'
    ensures ReaderOk(sets, counter', pubs, log, r)
  {
    hide Split, SeenOk, Follows, Laggards;
    forall p | p in r.replies ensures ReplyOk(pubs, r.was, r.base, counter', p, r.replies[p]) {
      assert ReplyOk(pubs, r.was, r.base, counter, p, r.replies[p]);
    }
  }

  lemma CounterGrows(s: State, s': State)
    requires Inv(s) && s' == s.(counter := s'.counter) && s.counter <= s'.counter && RoundsOk(s')
    requires !Split(s.sets, s.pubs, s'.counter - 1)
    ensures Inv(s')
  {
    hide Split, GlobalEpochInvariant, Attained, ReaderOk;
    forall p | p in s'.pubs ensures PubOk(s'.pubs[p], s'.counter) { assert PubOk(s.pubs[p], s.counter); }
    forall i | 0 <= i < |s.log| ensures DoneOk(s.sets, s'.counter, s.pubs, i, s.log[i]) {
      assert DoneOk(s.sets, s.counter, s.pubs, i, s.log[i]);
    }
    forall id | id in s.readers ensures ReaderOk(s.sets, s'.counter, s.pubs, s.log, s.readers[id]) {
      ReaderCounterGrows(s.sets, s.counter, s'.counter, s.pubs, s.log, s.readers[id]);
    }
  }

  /** The counter may pass e as long as it does not outrun a majority. */
  lemma AdvanceStep(s: State, e: Epoch)
    requires Inv(s) && Enabled(s, Advance(e)) && !Outruns(s, Advance(e))
    ensures Inv(Apply(s, Advance(e)))
  {
    if s.counter == e {
      hide Split, GlobalEpochInvariant, ReadersOk, LogOk, PubsOk;
      CounterGrows(s, Apply(s, Advance(e)));
    }
  }

  lemma NobodyLags(s: State)
    requires forall p :: p in s.pubs ==> PubOk(s.pubs[p], s.counter)
    requires s.counter == 0
    ensures !Split(s.sets, s.pubs, 0)
  {
    assert Laggards(s.pubs, 0) == {};
    forall j, k, mj, mk ensures !SplitsAt(s.sets, s.pubs, 0, j, k, mj, mk) {}
  }

  lemma InitializeStep(s: State)
    requires Inv(s)
    ensures Inv(Apply(s, Initialize))
  {
    if s.counter == 0 {
      NobodyLags(s);
      hide Split, GlobalEpochInvariant, ReadersOk, LogOk, PubsOk;
      CounterGrows(s, Apply(s, Initialize));
    }
  }

  lemma StartRoundStep(s: State)
    requires Inv(s) && Enabled(s, StartRound)
    ensures Inv(Apply(s, StartRound))
  {
    hide Split, GlobalEpochInvariant, ReaderOk, DoneOk, PubOk;
  }

  // ---------------------------------------------------------------- reads

  lemma StartReadStep(s: State, id: nat, k: SetId)
    requires Inv(s) && Enabled(s, StartRead(id, k))
    ensures Inv(Apply(s, StartRead(id, k)))
  {
    hide Split, GlobalEpochInvariant, PubOk, Attained, Laggards;
    var s' := Apply(s, StartRead(id, k));
    var r := s'.readers[id];
    forall i | 0 <= i < r.since
      ensures SeenOk(s.sets, r, s.log[i])
    {
      assert DoneOk(s.sets, s.counter, s.pubs, i, s.log[i]);
    }
    assert ReaderOk(s.sets, s.counter, s.pubs, s.log, r);
    hide ReaderOk, DoneOk;
  }

  lemma ReaderAfterReply(sets: map<SetId, set<PubId>>, counter: Epoch, pubs: map<PubId, Pub>, log: seq<Done>,
      r: Reader, p: PubId)
    requires ReaderOk(sets, counter, pubs, log, r) && p in sets[r.set_] && p in pubs && 0 < pubs[p].val <= counter
    ensures ReaderOk(sets, counter, pubs, log, r.(replies := r.replies[p := pubs[p].val]))
  {
    hide Split, Attained;
    var v := pubs[p].val;
    assert p in Laggards(pubs, v + 1) && p !in Laggards(pubs, v);
    if v < r.base { assert Laggards(pubs, v + 1) <= Laggards(r.was, v + 1); }
    assert ReplyOk(pubs, r.was, r.base, counter, p, v);
    hide Laggards, ReplyOk;
    var r' := r.(replies := r.replies[p := v]);
    forall i | 0 <= i < r.since ensures SeenOk(sets, r', log[i]) { assert SeenOk(sets, r, log[i]); }
  }

  lemma ReplyStep(s: State, id: nat, p: PubId)
    requires Inv(s) && Enabled(s, Reply(id, p))
    ensures Inv(Apply(s, Reply(id, p)))
  {
    hide Split, GlobalEpochInvariant, ReaderOk, DoneOk, RoundsOk;
    assert PubOk(s.pubs[p], s.counter);
    ReaderAfterReply(s.sets, s.counter, s.pubs, s.log, s.readers[id], p);
    Unread(s, Apply(s, Reply(id, p)));
  }

  /** A read that ends below the counter it started at had a majority of publishers lagging from the start. */
  lemma VotersLagged(sets: map<SetId, set<PubId>>, counter: Epoch, pubs: map<PubId, Pub>, log: seq<Done>, r: Reader,
      v: Epoch)
    requires ReaderOk(sets, counter, pubs, log, r) && v < r.base
    ensures Voters(r, v) <= Laggards(r.was, v + 1)
  {
    hide Split, Laggards, SeenOk, Follows;
    forall p | p in Voters(r, v) ensures p in Laggards(r.was, v + 1) {
      assert ReplyOk(pubs, r.was, r.base, counter, p, r.replies[p]);
    }
  }

  /** What a read returns is bounded below by every read that finished before it started. */
  lemma FinishReadBounds(sets: map<SetId, set<PubId>>, counter: Epoch, pubs: map<PubId, Pub>, log: seq<Done>,
      r: Reader, v: Epoch, i: nat)
    requires ReaderOk(sets, counter, pubs, log, r) && Majority(sets[r.set_], Voters(r, v)) && i < r.since
    ensures log[i].value <= v + 1 && (log[i].set_ == r.set_ ==> log[i].value <= v)
  {
    var d := log[i];
    assert SeenOk(sets, r, d);
    if d.value > v {
      VotersLagged(sets, counter, pubs, log, r, v);
      var q := Voters(r, v);
      var m :| Majority(sets[d.set_], m) && m !! Laggards(r.was, d.value);
      assert Laggards(r.was, v + 1) <= Laggards(r.was, d.value);
      assert m !! q;
      hide Laggards;
      if d.set_ == r.set_ {
        var p := MajoritiesMeet(sets[r.set_], m, q);
        assert false;
      } else if d.value > v + 1 {
        assert SplitsAt(sets, r.was, v + 1, d.set_, r.set_, m, q);
        assert Follows(r.was, r.was, v + 1);
        SplitMono(sets, r.was, r.was, r.base - 1, v + 1);
      }
    }
  }

  lemma FinishReadDone(s: State, r: Reader, v: Epoch)
    requires ReaderOk(s.sets, s.counter, s.pubs, s.log, r) && Majority(s.sets[r.set_], Voters(r, v))
    ensures DoneOk(s.sets, s.counter, s.pubs, |s.log|, Done(r.set_, v, r.since))
  {
    hide Split, SeenOk, Follows, Laggards;
    var q := Voters(r, v);
    forall p | p in q ensures p !in Laggards(s.pubs, v) && v <= s.counter {
      assert ReplyOk(s.pubs, r.was, r.base, s.counter, p, r.replies[p]);
    }
    assert Majority(s.sets[r.set_], q) && q !! Laggards(s.pubs, v);
    assert q != {};
  }

  lemma FinishReadInvariant(s: State, r: Reader, v: Epoch)
    requires GlobalEpochInvariant(s.log) && LogOk(s)
    requires ReaderOk(s.sets, s.counter, s.pubs, s.log, r) && Majority(s.sets[r.set_], Voters(r, v))
    ensures GlobalEpochInvariant(s.log + [Done(r.set_, v, r.since)])
  {
    hide Majority, ReaderOk, Attained;
    var log' := s.log + [Done(r.set_, v, r.since)];
    forall i, j | 0 <= j < |log'| && 0 <= i < log'[j].since && i < |log'|
      ensures log'[i].value <= log'[j].value + 1
      ensures log'[i].set_ == log'[j].set_ ==> log'[i].value <= log'[j].value
    {
      if j < |s.log| {
        assert DoneOk(s.sets, s.counter, s.pubs, j, s.log[j]);
        assert log'[j] == s.log[j] && log'[i] == s.log[i];
      } else {
        ReaderSince(s.sets, s.counter, s.pubs, s.log, r);
        FinishReadBounds(s.sets, s.counter, s.pubs, s.log, r, v, i);
      }
    }
  }

  lemma ReaderSince(sets: map<SetId, set<PubId>>, counter: Epoch, pubs: map<PubId, Pub>, log: seq<Done>, r: Reader)
    requires ReaderOk(sets, counter, pubs, log, r)
    ensures r.since <= |log|
  {
  }

  lemma ReaderLogGrows(sets: map<SetId, set<PubId>>, counter: Epoch, pubs: map<PubId, Pub>, log: seq<Done>, r: Reader,
      d: Done)
    requires ReaderOk(sets, counter, pubs, log, r)
    ensures ReaderOk(sets, counter, pubs, log + [d], r)
  {
    hide Split, SeenOk, Follows, ReplyOk;
  }

  lemma FinishReadStep(s: State, id: nat, v: Epoch)
    requires Inv(s) && Enabled(s, FinishRead(id, v))
    ensures Inv(Apply(s, FinishRead(id, v)))
  {
    hide Split, GlobalEpochInvariant, PubsOk, RoundsOk, Majority, ReaderOk, DoneOk;
    var s' := Apply(s, FinishRead(id, v));
    var r := s.readers[id];
    var d := Done(r.set_, v, r.since);
    FinishReadDone(s, r, v);
    FinishReadInvariant(s, r, v);
    forall i | i in s'.readers ensures ReaderOk(s.sets, s.counter, s.pubs, s'.log, s'.readers[i]) {
      ReaderLogGrows(s.sets, s.counter, s.pubs, s.log, s.readers[i], d);
    }
    forall i | 0 <= i < |s'.log| ensures DoneOk(s.sets, s.counter, s.pubs, i, s'.log[i]) {
      if i < |s.log| { assert DoneOk(s.sets, s.counter, s.pubs, i, s.log[i]); }
    }
    assert PubsOk(s') && RoundsOk(s') by { Unread(s, s'); }
  }

  lemma Unread(s: State, s': State)
    requires PubsOk(s) && RoundsOk(s) && s' == s.(readers := s'.readers, log := s'.log)
    ensures PubsOk(s') && RoundsOk(s')
  {
  }

  lemma StepInv(s: State, a: Action)
    requires Inv(s) && Enabled(s, a) && !Outruns(s, a)
    ensures Inv(Apply(s, a))
  {
    hide Inv, Outruns;
    match a
    case Initialize => InitializeStep(s);
    case StartRound => StartRoundStep(s);
    case ExchangeEpoch(c) => ExchangeStep(s, c);
    case Advance(e) => AdvanceStep(s, e);
    case StartRead(id, k) => StartReadStep(s, id, k);
    case Reply(id, p) => ReplyStep(s, id, p);
    case FinishRead(id, v) => FinishReadStep(s, id, v);
    case LoadEpoch(p, e) => LoadStep(s, p, e);
    case Restart(p) => RestartStep(s, a);
    case SyncRead(p) => RestartStep(s, a);
    case SyncStore(p) => RestartStep(s, a);
  }

  // ---------------------------------------------------------------- whole runs

  /** An uninitialized counter and publishers that know nothing. */
  ghost predicate Initial(s: State) {
    && s.counter == 0 && s.rounds == {} && s.calls == {} && s.acked == {} && s.readers == map[] && s.log == []
    && (forall p :: p in s.pubs ==> s.pubs[p] == Pub(0, None))
    && (forall k :: k in s.sets ==> s.sets[k] <= s.pubs.Keys)
  }

  lemma InitialInv(s: State)
    requires Initial(s)
    ensures Inv(s)
  {
    assert Laggards(s.pubs, -1) == {};
    forall j, k, mj, mk ensures !SplitsAt(s.sets, s.pubs, -1, j, k, mj, mk) {}
  }

  ghost predicate IsRun(s: State, acts: seq<Action>)
    decreases |acts|
  {
    acts == [] || (Enabled(s, acts[0]) && IsRun(Apply(s, acts[0]), acts[1..]))
  }

  ghost function After(s: State, acts: seq<Action>): State
    requires IsRun(s, acts)
    decreases |acts|
  {
    if acts == [] then s else After(Apply(s, acts[0]), acts[1..])
  }

  /** A run in which the counter never outruns a majority. */
  ghost predicate IsSafeRun(s: State, acts: seq<Action>)
    decreases |acts|
  {
    acts == [] || (Enabled(s, acts[0]) && !Outruns(s, acts[0]) && IsSafeRun(Apply(s, acts[0]), acts[1..]))
  }

  lemma {:induction false} RunInv(s: State, acts: seq<Action>)
    requires Inv(s) && IsSafeRun(s, acts)
    ensures IsRun(s, acts) && Inv(After(s, acts))
    decreases |acts|
  {
    hide Inv, Outruns;
    if acts != [] {
      StepInv(s, acts[0]);
      RunInv(Apply(s, acts[0]), acts[1..]);
    }
  }

  /**
   * The Global Epoch Invariant: any number of epoch servers, publisher sets and readers, requests
   * delayed or repeated without bound and losing their exchanges, publishers restarting at any time.
   */
  lemma ReadsKeepGlobalEpochInvariant(s: State, acts: seq<Action>)
    requires Initial(s) && IsSafeRun(s, acts)
    ensures IsRun(s, acts) && GlobalEpochInvariant(After(s, acts).log)
  {
    InitialInv(s);
    RunInv(s, acts);
  }

  // ---------------------------------------------------------------- acknowledgements

  /** A publisher acknowledges the present epoch after an exchange that lost, and is still behind it. */
  ghost predicate Lossy(s: State, a: Action) {
    a.ExchangeEpoch? && a.c.p in s.pubs && a.c.e == s.counter && s.pubs[a.c.p].val != a.c.loaded
    && Lags(s.pubs[a.c.p], a.c.e)
  }

  /** A publisher that has just acknowledged e is behind e if and only if its exchange lost while it was behind. */
  lemma AcknowledgementTruthfulIff(s: State, c: Call)
    requires Inv(s) && Enabled(s, ExchangeEpoch(c))
    ensures Lags(Apply(s, ExchangeEpoch(c)).pubs[c.p], c.e) <==> s.pubs[c.p].val != c.loaded && Lags(s.pubs[c.p], c.e)
  {
    hide Split, GlobalEpochInvariant, ReadersOk, LogOk;
    assert RoundsOk(s);
  }

  ghost predicate AcksTrue(s: State) {
    forall x :: x in s.acked ==> x.1 <= s.counter && (x.1 == s.counter ==> x.0 !in Laggards(s.pubs, s.counter))
  }

  ghost predicate IsTruthfulRun(s: State, acts: seq<Action>)
    decreases |acts|
  {
    acts == [] || (Enabled(s, acts[0]) && !Lossy(s, acts[0]) && IsTruthfulRun(Apply(s, acts[0]), acts[1..]))
  }

  lemma StepTruthful(s: State, a: Action)
    requires Inv(s) && AcksTrue(s) && Enabled(s, a) && !Lossy(s, a)
    ensures AcksTrue(Apply(s, a))
  {
    hide Split, GlobalEpochInvariant, ReadersOk, LogOk, Majority;
    if a.Restart? || a.SyncRead? || a.SyncStore? { assert PubOk(s.pubs[a.p], s.counter); }
  }

  /** The acknowledging majority of a set is not behind, so no majority of that set is. */
  lemma TruthfulAdvance(s: State, e: Epoch)
    requires AcksTrue(s) && Enabled(s, Advance(e))
    ensures !Outruns(s, Advance(e))
  {
    if Outruns(s, Advance(e)) {
      var j, k, mj, mk :| SplitsAt(s.sets, s.pubs, e, j, k, mj, mk);
      var p := MajoritiesMeet(s.sets[k], mk, Ackers(s.sets[k], s.acked, e));
      assert false;
    }
  }

  lemma {:induction false} TruthfulIsSafe(s: State, acts: seq<Action>)
    requires Inv(s) && AcksTrue(s) && IsTruthfulRun(s, acts)
    ensures IsSafeRun(s, acts)
    decreases |acts|
  {
    hide Inv, AcksTrue, Lossy;
    if acts != [] {
      assert !Outruns(s, acts[0]) by { if acts[0].Advance? { TruthfulAdvance(s, acts[0].e); } }
      hide Outruns;
      StepInv(s, acts[0]);
      StepTruthful(s, acts[0]);
      TruthfulIsSafe(Apply(s, acts[0]), acts[1..]);
    }
  }

  /** Only a lost exchange that is acknowledged for the present epoch can make the counter outrun a majority. */
  lemma TruthfulRunsAreSafe(s: State, acts: seq<Action>)
    requires Initial(s) && IsTruthfulRun(s, acts)
    ensures IsSafeRun(s, acts)
  {
    InitialInv(s);
    TruthfulIsSafe(s, acts);
  }
}
