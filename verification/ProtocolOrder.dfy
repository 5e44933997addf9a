/**
 * Where decided commits are, and how their epochs are ordered: kept by every run, whatever leaders come, go or
 * stay on.
 */
module ProtocolOrder {
  import opened Base
  import opened Ranges
  import opened Protocol
  import opened ProtocolLocks
  import Locking
  import Records
  import Overlays
  import Decisions

  // ---------------------------------------------------------------- the invariant

  ghost predicate RecordKept(p: Overlays.Participant, t: TxId, mem: Memory) {
    t in mem.prepared && Overlays.Enumerates(mem.prepared[t], p)
  }

  /**
   * At the place it voted at, a transaction has its record from its vote on. A decided commit holds the
   * lock there until it is applied; then that leader knows of its epoch.
   */
  ghost predicate TrackAt(c: Coord, t: TxId, r: RangeId, mem: Memory, ap: seq<Entry>)
    requires r in c.parts
  {
    && (c.phase.Preparing? && r in c.votes ==> RecordKept(c.parts[r], t, mem))
    && (c.phase.Committed? ==>
          if Holds(mem, t) then RecordKept(c.parts[r], t, mem)
          else Entry(t, c.phase.epoch, c.parts) in ap && c.phase.epoch <= mem.highest)
  }

  ghost predicate Tracked(s: System, t: TxId, r: RangeId)
    requires t in s.txs && r in s.txs[t].asked
  {
    var pl := (r, s.txs[t].asked[r]);
    r in s.txs[t].parts && pl in s.places && r in s.applied && TrackAt(s.txs[t], t, r, s.places[pl], s.applied[r])
  }

  ghost predicate Track(s: System) {
    forall t, r :: t in s.txs && r in s.txs[t].asked ==> Tracked(s, t, r)
  }

  /** Both were asked for their votes at the same place. */
  predicate SamePlace(c: Coord, d: Coord, r: RangeId) {
    r in c.asked && r in d.asked && c.asked[r] == d.asked[r]
  }

  /** A vote bounds every commit decided at its place. */
  ghost predicate VotesAbove(txs: map<TxId, Coord>) {
    forall t, u, r :: t in txs && u in txs && txs[t].phase.Preparing? && r in txs[t].votes && txs[u].phase.Committed?
                      && SamePlace(txs[t], txs[u], r) ==>
                        txs[u].phase.epoch <= txs[t].votes[r].highest
  }

  /** Commits decided at one place have ascending epochs, in decision order. */
  ghost predicate EpochsTracked(txs: map<TxId, Coord>, h: seq<Entry>) {
    forall i, j, r :: 0 <= i < j < |h| && h[i].id in txs && h[j].id in txs
                      && SamePlace(txs[h[i].id], txs[h[j].id], r) ==>
                        h[i].epoch <= h[j].epoch
  }

  ghost predicate Order(s: System) {
    Track(s) && VotesAbove(s.txs) && EpochsTracked(s.txs, s.history)
  }

  // ---------------------------------------------------------------- frames

  /** The system after one range has another row, table and applied list and one place of it another memory. */
  function Changed(s: System, r: RangeId, st: Store, m: nat, mem: Memory, ap: seq<Entry>): System {
    s.(stores := s.stores[r := st], places := s.places[(r, m) := mem], applied := s.applied[r := ap])
  }

  lemma ChangedMemory(s: System, pl: Place, mem: Memory)
    requires pl.0 in s.stores && pl.0 in s.applied
    ensures Changed(s, pl.0, s.stores[pl.0], pl.1, mem, s.applied[pl.0]) == SetMemory(s, pl, mem)
  {
    assert s.stores[pl.0 := s.stores[pl.0]] == s.stores;
    assert s.applied[pl.0 := s.applied[pl.0]] == s.applied;
  }

  /** A step at one place. */
  lemma PlaceOrder(s: System, r: RangeId, st: Store, m: nat, mem: Memory, ap: seq<Entry>)
    requires Order(s) && r in s.applied && s.applied[r] <= ap
    requires forall u :: u in s.txs && r in s.txs[u].asked && s.txs[u].asked[r] == m ==>
               r in s.txs[u].parts && TrackAt(s.txs[u], u, r, mem, ap)
    ensures Order(Changed(s, r, st, m, mem, ap))
  {
    hide VotesAbove, EpochsTracked;
    var s' := Changed(s, r, st, m, mem, ap);
    forall u, q | u in s'.txs && q in s'.txs[u].asked ensures Tracked(s', u, q) {
      assert Tracked(s, u, q);
      hide TrackAt;
      if q == r { TrackGrows(s.txs[u], u, r, s.places[(r, s.txs[u].asked[r])], s.applied[r], ap); }
    }
  }

  lemma TrackGrows(c: Coord, t: TxId, r: RangeId, mem: Memory, ap: seq<Entry>, ap': seq<Entry>)
    requires r in c.parts && TrackAt(c, t, r, mem, ap) && ap <= ap'
    ensures TrackAt(c, t, r, mem, ap')
  {
  }

  /** Records and locks of decided transactions stay, and the known epoch does not fall. */
  lemma TrackSame(c: Coord, u: TxId, r: RangeId, mem: Memory, mem': Memory, ap: seq<Entry>)
    requires r in c.parts && TrackAt(c, u, r, mem, ap) && mem.highest <= mem'.highest
    requires c.phase.Committed? ==> (Holds(mem', u) <==> Holds(mem, u))
    requires u in mem.prepared ==> u in mem'.prepared && mem'.prepared[u] == mem.prepared[u]
    ensures TrackAt(c, u, r, mem', ap)
  {
    hide Overlays.Enumerates;
  }

  lemma TrackedAt(s: System, u: TxId, r: RangeId)
    requires Order(s) && u in s.txs && r in s.txs[u].asked
    ensures r in s.txs[u].parts && (r, s.txs[u].asked[r]) in s.places && r in s.applied
    ensures TrackAt(s.txs[u], u, r, s.places[(r, s.txs[u].asked[r])], s.applied[r])
  {
    hide VotesAbove, EpochsTracked, TrackAt;
    assert Tracked(s, u, r);
  }

  /** A step that only changes the memory of one place, in a way that matters to no decided transaction. */
  lemma MemoryOrder(s: System, pl: Place, mem: Memory)
    requires Weak(s) && Order(s) && pl in s.places && s.places[pl].highest <= mem.highest
    requires forall u :: u in s.txs && s.txs[u].phase.Committed? ==> (Holds(mem, u) <==> Holds(s.places[pl], u))
    requires forall u :: u in s.places[pl].prepared ==> u in mem.prepared && mem.prepared[u] == s.places[pl].prepared[u]
    ensures Order(SetMemory(s, pl, mem))
  {
    hide Weak, Order, TrackAt;
    PlaceKnown(s, pl);
    forall u | u in s.txs && pl.0 in s.txs[u].asked && s.txs[u].asked[pl.0] == pl.1
      ensures pl.0 in s.txs[u].parts && TrackAt(s.txs[u], u, pl.0, mem, s.applied[pl.0])
    {
      TrackedAt(s, u, pl.0);
      TrackSame(s.txs[u], u, pl.0, s.places[pl], mem, s.applied[pl.0]);
    }
    PlaceOrder(s, pl.0, s.stores[pl.0], pl.1, mem, s.applied[pl.0]);
    ChangedMemory(s, pl, mem);
  }

  lemma PlaceKnown(s: System, pl: Place)
    requires Weak(s) && pl in s.places
    ensures pl.0 in s.stores && pl.0 in s.applied
  {
    hide TxOk, SentOk, Known, TermOk, HistoryOk, AppliedOk, Released;
    PlaceNumber(s, pl);
  }

  /** A step that changes one undecided coordinator and gives it no vote. */
  lemma CoordOrder(s: System, t: TxId, c: Coord)
    requires Order(s) && !c.phase.Committed? && (t in s.txs ==> !s.txs[t].phase.Committed?)
    requires forall r :: r in c.asked ==> r in c.parts && (r, c.asked[r]) in s.places && r in s.applied
    requires forall r :: c.phase.Preparing? && r in c.votes ==>
               && Is(s, t, Preparing) && r in s.txs[t].votes && SamePlace(c, s.txs[t], r)
               && c.votes[r] == s.txs[t].votes[r] && r in s.txs[t].parts && c.parts[r] == s.txs[t].parts[r]
    requires forall i :: 0 <= i < |s.history| ==> s.history[i].id != t
    ensures Order(SetCoord(s, t, c))
  {
    var s' := SetCoord(s, t, c);
    forall u, r | u in s'.txs && r in s'.txs[u].asked ensures Tracked(s', u, r) {
      if u != t || (c.phase.Preparing? && r in c.votes) { assert Tracked(s, u, r); }
    }
    assert VotesAbove(s'.txs) by { hide Track, EpochsTracked; }
    assert EpochsTracked(s'.txs, s'.history) by { hide Track, VotesAbove; }
  }

  /** Nothing here depends on rows, tables or leases. */
  lemma SameOrder(s: System, s': System)
    requires Order(s) && s'.txs == s.txs && s'.places == s.places && s'.applied == s.applied && s'.history == s.history
    ensures Order(s')
  {
    hide VotesAbove, EpochsTracked, TrackAt;
    forall t, r | t in s'.txs && r in s'.txs[t].asked ensures Tracked(s', t, r) { assert Tracked(s, t, r); }
  }

  lemma NotInHistory(s: System, t: TxId)
    requires Weak(s) && (t in s.txs ==> !s.txs[t].phase.Committed?)
    ensures forall i :: 0 <= i < |s.history| ==> s.history[i].id != t
  {
    hide PlacesOk, TxOk, SentOk, Known, TermOk, AppliedOk, Released;
    forall i | 0 <= i < |s.history| ensures s.history[i].id != t { assert Listed(s.txs, s.history[i]); }
  }

  /** Whatever has been asked has been asked of a place that exists. */
  lemma AskedKnown(s: System, t: TxId)
    requires Weak(s) && t in s.txs
    ensures forall r :: r in s.txs[t].asked ==>
              r in s.txs[t].parts && (r, s.txs[t].asked[r]) in s.places && r in s.applied
    ensures s.txs[t].phase.Running? ==> s.txs[t].asked == map[]
    ensures s.txs[t].votes.Keys <= s.txs[t].asked.Keys
  {
    hide Weak;
    CoordOk(s, t);
    forall r | r in s.txs[t].asked ensures r in s.txs[t].parts && (r, s.txs[t].asked[r]) in s.places && r in s.applied {
      PlaceKnown(s, (r, s.txs[t].asked[r]));
    }
  }

  // ---------------------------------------------------------------- one step

  /** Begin, buffer, read, start to commit, give up: nobody votes. */
  lemma QuietOrder(s: System, t: TxId, c: Coord)
    requires Weak(s) && Order(s) && t in s.txs && !s.txs[t].phase.Committed? && !c.phase.Committed?
    requires c.asked == s.txs[t].asked && c.votes == s.txs[t].votes && s.txs[t].parts.Keys <= c.parts.Keys
    requires c.phase.Preparing? ==>
               (s.txs[t].phase.Running? || (s.txs[t].phase.Preparing? && c.parts == s.txs[t].parts))
    ensures Order(SetCoord(s, t, c))
  {
    hide Weak, Order;
    AskedKnown(s, t);
    NotInHistory(s, t);
    CoordOrder(s, t, c);
  }

  lemma BeginOrder(s: System, t: TxId)
    requires Weak(s) && Order(s) && t !in s.txs
    ensures Order(Apply(s, Begin(t)))
  {
    hide Weak, Order;
    NotInHistory(s, t);
    CoordOrder(s, t, NEW_COORD);
    SameOrder(SetCoord(s, t, NEW_COORD), Apply(s, Begin(t)));
  }

  lemma BufferOrder(s: System, a: Action)
    requires Weak(s) && Order(s) && Enabled(s, a)
    requires a.DoPut? || a.DoDel? || a.FinishGet? || a.StartCommit? || a.GiveUp?
    ensures Order(Apply(s, a))
  {
    hide Weak, Order, Records.Get, Overlays.Buffered, Overlays.BufferPut, Overlays.BufferDel;
    QuietOrder(s, a.t, Apply(s, a).txs[a.t]);
  }

  lemma RequestOrder(s: System, t: TxId, pl: Place)
    requires Weak(s) && Order(s) && t in s.txs && !s.txs[t].phase.Committed? && pl in s.places
    ensures Order(SetMemory(s, pl, Request(s.places[pl], t)))
  {
    hide Weak, Order, Locking.Acquire;
    forall u | u in s.txs && s.txs[u].phase.Committed?
      ensures Holds(Request(s.places[pl], t), u) <==> Holds(s.places[pl], u)
    {
      RequestLocally(s.places[pl], t, u);
    }
    MemoryOrder(s, pl, Request(s.places[pl], t));
  }

  lemma AskGetOrder(s: System, t: TxId, r: RangeId, m: nat)
    requires Weak(s) && Order(s) && Enabled(s, AskGet(t, r, m))
    ensures Order(Apply(s, AskGet(t, r, m)))
  {
    hide Weak, Order, Request;
    RequestOrder(s, t, (r, m));
    AskedKnown(s, t);
    NotInHistory(s, t);
    var s1 := SetMemory(s, (r, m), Request(s.places[(r, m)], t));
    CoordOrder(s1, t, Asking(s.txs[t], r, m));
    assert SetCoord(s1, t, Asking(s.txs[t], r, m)) == Apply(s, AskGet(t, r, m));
  }

  lemma AskPrepareOrder(s: System, t: TxId, r: RangeId, m: nat)
    requires Weak(s) && Order(s) && Enabled(s, AskPrepare(t, r, m))
    ensures Order(Apply(s, AskPrepare(t, r, m)))
  {
    hide Weak, Order, Request;
    var c, pl := s.txs[t], (r, m);
    RequestOrder(s, t, pl);
    assert SetMemory(s, pl, s.places[pl]) == s;
    AskedKnown(s, t);
    NotInHistory(s, t);
    PlaceKnown(s, pl);
    var s1, c' := SetMemory(s, pl, Asked(c, t, r, s.places[pl])), c.(asked := c.asked[r := m]);
    CoordOrder(s1, t, c');
    assert SetCoord(s1, t, c') == Apply(s, AskPrepare(t, r, m));
  }

  /** A vote given under the lock is not below any commit decided at that place, since none of them holds it. */
  lemma VoteOrder(s: System, t: TxId, r: RangeId)
    requires Order(s) && Is(s, t, Preparing) && r in s.txs[t].parts && r in s.txs[t].asked && r !in s.txs[t].votes
    requires (r, s.txs[t].asked[r]) in s.places && r in s.applied && Holds(s.places[(r, s.txs[t].asked[r])], t)
    requires RecordKept(s.txs[t].parts[r], t, s.places[(r, s.txs[t].asked[r])])
    requires forall i :: 0 <= i < |s.history| ==> s.history[i].id != t
    ensures Order(SetCoord(s, t, s.txs[t].(votes := s.txs[t].votes[r := VoteOf(s.places[(r, s.txs[t].asked[r])])])))
  {
    var mem := s.places[(r, s.txs[t].asked[r])];
    var c' := s.txs[t].(votes := s.txs[t].votes[r := VoteOf(mem)]);
    var s' := SetCoord(s, t, c');
    forall u, q | u in s'.txs && q in s'.txs[u].asked ensures Tracked(s', u, q) { assert Tracked(s, u, q); }
    forall u | u in s.txs && s.txs[u].phase.Committed? && SamePlace(s.txs[t], s.txs[u], r)
      ensures s.txs[u].phase.epoch <= mem.highest
    {
      assert Tracked(s, u, r);
    }
    hide Track;
    assert EpochsTracked(s'.txs, s'.history) by { hide VotesAbove; }
    hide EpochsTracked;
  }

  lemma FinishPrepareOrder(s: System, t: TxId, r: RangeId, rec: Overlays.Record)
    requires Weak(s) && Order(s) && Enabled(s, FinishPrepare(t, r, rec))
    ensures Order(Apply(s, FinishPrepare(t, r, rec)))
  {
    hide Weak, Order, Overlays.Enumerates;
    var c := s.txs[t];
    var pl := (r, c.asked[r]);
    PrepareOrder(s, t, pl, rec);
    NotInHistory(s, t);
    PlaceKnown(s, pl);
    var s1 := SetMemory(s, pl, Prepare(s.places[pl], t, rec));
    VoteOrder(s1, t, r);
    assert SetCoord(s1, t, c.(votes := c.votes[r := VoteOf(s.places[pl])])) == Apply(s, FinishPrepare(t, r, rec));
  }

  lemma PrepareOrder(s: System, t: TxId, pl: Place, rec: Overlays.Record)
    requires Weak(s) && Order(s) && pl in s.places && Is(s, t, Preparing) && pl.0 !in s.txs[t].votes
    ensures Order(SetMemory(s, pl, Prepare(s.places[pl], t, rec)))
  {
    hide Weak, Order, TrackAt;
    PlaceKnown(s, pl);
    var mem := Prepare(s.places[pl], t, rec);
    forall u | u in s.txs && pl.0 in s.txs[u].asked && s.txs[u].asked[pl.0] == pl.1
      ensures pl.0 in s.txs[u].parts && TrackAt(s.txs[u], u, pl.0, mem, s.applied[pl.0])
    {
      TrackedAt(s, u, pl.0);
      if u == t { NoTrack(s.txs[t], t, pl.0, mem, s.applied[pl.0]); }
      else { TrackSame(s.txs[u], u, pl.0, s.places[pl], mem, s.applied[pl.0]); }
    }
    PlaceOrder(s, pl.0, s.stores[pl.0], pl.1, mem, s.applied[pl.0]);
    ChangedMemory(s, pl, mem);
  }

  lemma NoTrack(c: Coord, t: TxId, r: RangeId, mem: Memory, ap: seq<Entry>)
    requires r in c.parts && !c.phase.Committed? && (c.phase.Preparing? ==> r !in c.votes)
    ensures TrackAt(c, t, r, mem, ap)
  {
  }

  // ---------------------------------------------------------------- decisions

  /** Two transactions with votes of one place would both hold its lock. */
  lemma OneVoteEach(s: System, t: TxId, u: TxId, r: RangeId)
    requires Weak(s) && Is(s, t, Preparing) && Is(s, u, Preparing) && r in s.txs[t].votes && r in s.txs[u].votes
    requires SamePlace(s.txs[t], s.txs[u], r)
    ensures t == u
  {
    hide Weak;
    AskedKnown(s, t);
    AskedKnown(s, u);
    var pl := (r, s.txs[t].asked[r]);
    HoldsWhereVoted(s, t, pl);
    HoldsWhereVoted(s, u, pl);
  }

  lemma DecideTracked(s: System, t: TxId, e: Epoch, u: TxId, r: RangeId)
    requires Weak(s) && Order(s) && Is(s, t, Preparing) && Commits(s, t, e)
    requires s.txs[t].votes.Keys == s.txs[t].parts.Keys
    requires u in s.txs && r in s.txs[u].asked
    ensures var s' := DecideStep(s, t, e); u in s'.txs && r in s'.txs[u].asked && Tracked(s', u, r)
  {
    hide Weak, Order, Overlays.Enumerates, LeasesCover;
    TrackedAt(s, u, r);
    AskedKnown(s, u);
    if u == t { HoldsWhereVoted(s, t, (r, s.txs[t].asked[r])); }
  }

  lemma CommitOrder(s: System, t: TxId, e: Epoch)
    requires Weak(s) && Order(s) && Is(s, t, Preparing) && Commits(s, t, e)
    requires s.txs[t].votes.Keys == s.txs[t].parts.Keys
    requires forall r :: r in s.txs[t].votes ==> s.txs[t].votes[r].highest <= e
    ensures Order(DecideStep(s, t, e))
  {
    hide Weak, Tracked, VotesAbove, EpochsTracked, LeasesCover, Decisions.TryCommit;
    var s' := DecideStep(s, t, e);
    forall u, r | u in s'.txs && r in s'.txs[u].asked ensures Tracked(s', u, r) { DecideTracked(s, t, e, u, r); }
    DecideVotes(s, t, e);
    DecideEpochs(s, t, e);
  }

  lemma DecideVotes(s: System, t: TxId, e: Epoch)
    requires Weak(s) && Order(s) && Is(s, t, Preparing) && Commits(s, t, e)
    requires s.txs[t].votes.Keys == s.txs[t].parts.Keys
    ensures VotesAbove(DecideStep(s, t, e).txs)
  {
    hide Weak, Track, EpochsTracked, LeasesCover, Decisions.TryCommit;
    var txs := DecideStep(s, t, e).txs;
    AskedKnown(s, t);
    forall u, w, r | u in txs && w in txs && txs[u].phase.Preparing? && r in txs[u].votes && txs[w].phase.Committed?
                     && SamePlace(txs[u], txs[w], r)
      ensures txs[w].phase.epoch <= txs[u].votes[r].highest
    {
      if w == t { OneVoteEach(s, t, u, r); }
    }
  }

  lemma DecideEpochs(s: System, t: TxId, e: Epoch)
    requires Weak(s) && Order(s) && Is(s, t, Preparing) && Commits(s, t, e)
    requires s.txs[t].votes.Keys == s.txs[t].parts.Keys
    requires forall r :: r in s.txs[t].votes ==> s.txs[t].votes[r].highest <= e
    ensures EpochsTracked(DecideStep(s, t, e).txs, DecideStep(s, t, e).history)
  {
    hide Weak, Track, LeasesCover, Decisions.TryCommit;
    var txs, h := DecideStep(s, t, e).txs, DecideStep(s, t, e).history;
    NotInHistory(s, t);
    AskedKnown(s, t);
    forall i, j, r | 0 <= i < j < |h| && h[i].id in txs && h[j].id in txs && SamePlace(txs[h[i].id], txs[h[j].id], r)
      ensures h[i].epoch <= h[j].epoch
    {
      assert h[i] == s.history[i] && h[i].id != t;
      if j == |s.history| {
        HistoryCommitted(s, i);
        assert SamePlace(s.txs[t], s.txs[h[i].id], r) && r in s.txs[t].votes;
      } else {
        assert h[j] == s.history[j] && h[j].id != t;
      }
    }
  }

  lemma HistoryCommitted(s: System, i: nat)
    requires Weak(s) && i < |s.history|
    ensures s.history[i].id in s.txs && s.txs[s.history[i].id].phase == Committed(s.history[i].epoch)
    ensures s.txs[s.history[i].id].parts == s.history[i].parts
  {
    hide PlacesOk, TxOk, SentOk, Known, TermOk, AppliedOk, Released;
    assert Listed(s.txs, s.history[i]);
  }

  lemma DecideOrder(s: System, t: TxId, readEpoch: Epoch, e: Epoch)
    requires Weak(s) && Order(s) && Enabled(s, Decide(t, readEpoch, e))
    ensures Order(Apply(s, Decide(t, readEpoch, e)))
  {
    hide Weak, Order, LeasesCover;
    if !LeasesCover(s.txs[t].votes, e) {
      QuietOrder(s, t, s.txs[t].(phase := Aborted));
    } else if Commits(s, t, e) {
      CommitOrder(s, t, e);
    }
  }

  // ---------------------------------------------------------------- steps at places

  lemma RangeAbortOrder(s: System, t: TxId, r: RangeId, m: nat)
    requires Weak(s) && Order(s) && Enabled(s, RangeAbort(t, r, m))
    ensures Order(Apply(s, RangeAbort(t, r, m)))
  {
    hide Weak, Order, Locking.Release, Released;
    var pl := (r, m);
    var mem := Abort(s.places[pl], t);
    if Holds(s.places[pl], t) { ReleasedAfterRelease(s, pl, mem); }
    MemoryOrder(s, pl, mem);
  }

  /** A commit at the place whose lock it holds: it is applied there, and the leader knows its epoch. */
  lemma AppliedOrder(s: System, t: TxId, r: RangeId, m: nat)
    requires Weak(s) && Order(s) && Enabled(s, RangeCommit(t, r, m, true)) && Holds(s.places[(r, m)], t)
    ensures Order(Apply(s, RangeCommit(t, r, m, true)))
  {
    hide Weak, Order, TrackAt, Written, Locking.Release, Released;
    var pl := (r, m);
    var mem, e := s.places[pl], s.txs[t].phase.epoch;
    var mem', ap := Commit(mem, t, e), s.applied[r] + [Entry(t, e, s.txs[t].parts)];
    ReleasedAfterRelease(s, pl, mem');
    forall u | u in s.txs && r in s.txs[u].asked && s.txs[u].asked[r] == m
      ensures r in s.txs[u].parts && TrackAt(s.txs[u], u, r, mem', ap)
    {
      TrackedAt(s, u, r);
      TrackApplied(s.txs[u], u, r, mem, t, s.txs[t], s.applied[r]);
    }
    PlaceOrder(s, r, s.stores[r].(table := Written(mem, s.stores[r].table, t, e)), m, mem', ap);
  }

  lemma TrackApplied(c: Coord, u: TxId, r: RangeId, mem: Memory, t: TxId, d: Coord, ap: seq<Entry>)
    requires r in c.parts && TrackAt(c, u, r, mem, ap) && Holds(mem, t) && d.phase.Committed? && (u == t ==> c == d)
    requires Holds(Commit(mem, t, d.phase.epoch), u) ==> !c.phase.Committed?
    ensures TrackAt(c, u, r, Commit(mem, t, d.phase.epoch), ap + [Entry(t, d.phase.epoch, d.parts)])
  {
    hide Overlays.Enumerates, Locking.Release;
  }

  lemma RangeCommitOrder(s: System, t: TxId, r: RangeId, m: nat, logged: bool)
    requires Weak(s) && Order(s) && Enabled(s, RangeCommit(t, r, m, logged))
    ensures Order(Apply(s, RangeCommit(t, r, m, logged)))
  {
    hide Weak, Order;
    var pl := (r, m);
    if !logged { MemoryOrder(s, pl, CommitLogFailure(s.places[pl], t, s.txs[t].phase.epoch)); }
    else if Holds(s.places[pl], t) { AppliedOrder(s, t, r, m); }
  }

  lemma RenewOrder(s: System, r: RangeId, m: nat, epoch: Epoch, n: nat)
    requires Weak(s) && Order(s) && Enabled(s, RenewLeaseAt(r, m, epoch, n))
    ensures Order(Apply(s, RenewLeaseAt(r, m, epoch, n)))
  {
    hide Weak, Order;
    if s.stores[r].leader == m {
      var mem := Renew(s.places[(r, m)], epoch, n);
      MemoryOrder(s, (r, m), mem);
      SameOrder(SetMemory(s, (r, m), mem), Apply(s, RenewLeaseAt(r, m, epoch, n)));
    }
  }

  lemma LoadOrder(s: System, r: RangeId, epoch: Epoch, n: nat)
    requires Weak(s) && Order(s) && Enabled(s, LoadRange(r, epoch, n))
    ensures Order(Apply(s, LoadRange(r, epoch, n)))
  {
    hide Weak, Order;
    var st := s.stores[r];
    var m, mem := st.leader, Load(st.lease, epoch, n);
    RangeApplied(s, r);
    forall u | u in s.txs && r in s.txs[u].asked ensures s.txs[u].asked[r] != m {
      AskedKnown(s, u);
      PlaceNumber(s, (r, s.txs[u].asked[r]));
    }
    var st' := st.(lease := mem.lease, serving := m);
    PlaceOrder(s, r, st', m, mem, s.applied[r]);
    SameOrder(Changed(s, r, st', m, mem, s.applied[r]), Apply(s, LoadRange(r, epoch, n)));
  }

  lemma RangeApplied(s: System, r: RangeId)
    requires Weak(s) && r in s.stores
    ensures r in s.applied && r in s.base && s.applied[r := s.applied[r]] == s.applied
  {
    hide PlacesOk, TxOk, SentOk, Known, TermOk, HistoryOk, AppliedOk, Released;
  }

  /** Every step keeps the order, also those of servers whose number has been replaced. */
  lemma StepOrder(s: System, a: Action)
    requires Weak(s) && Order(s) && Enabled(s, a)
    ensures Order(Apply(s, a))
  {
    hide Weak, Order;
    match a
    case Begin(t) => BeginOrder(s, t);
    case DoPut(t, r, k, v) => BufferOrder(s, a);
    case DoDel(t, r, k) => BufferOrder(s, a);
    case AskGet(t, r, m) => AskGetOrder(s, t, r, m);
    case FinishGet(t, r, m, k) => BufferOrder(s, a);
    case StartCommit(t) => BufferOrder(s, a);
    case AskPrepare(t, r, m) => AskPrepareOrder(s, t, r, m);
    case FinishPrepare(t, r, rec) => FinishPrepareOrder(s, t, r, rec);
    case Decide(t, readEpoch, e) => DecideOrder(s, t, readEpoch, e);
    case GiveUp(t) => BufferOrder(s, a);
    case StoreAbort(t) => SameOrder(s, Apply(s, a));
    case RangeAbort(t, r, m) => RangeAbortOrder(s, t, r, m);
    case RangeCommit(t, r, m, logged) => RangeCommitOrder(s, t, r, m, logged);
    case RenewLeaseAt(r, m, epoch, n) => RenewOrder(s, r, m, epoch, n);
    case TakeOver(r) => SameOrder(s, Apply(s, a));
    case LoadRange(r, epoch, n) => LoadOrder(s, r, epoch, n);
    case UnloadRange(r, m) => SameOrder(s, Apply(s, a));
  }

  lemma InitialOrder(s: System)
    requires Initial(s)
    ensures Order(s)
  {
  }

  lemma {:induction false} RunOrder(s: System, acts: seq<Action>)
    requires Weak(s) && Order(s) && IsRun(s, acts)
    ensures Weak(After(s, acts)) && Order(After(s, acts))
    decreases |acts|
  {
    hide Weak, Order;
    if acts != [] {
      StepWeak(s, acts[0]);
      StepOrder(s, acts[0]);
      RunOrder(Apply(s, acts[0]), acts[1..]);
    }
  }

  // ---------------------------------------------------------------- commits are applied in decision order

  /** Wherever the two stand in the history, x comes first. */
  ghost predicate Before(h: seq<Entry>, x: Entry, y: Entry) {
    forall i, j :: 0 <= i < |h| && 0 <= j < |h| && h[i] == x && h[j] == y ==> i < j
  }

  /** Whatever was decided at a place before something else was decided there has been applied. */
  ghost predicate Firsts(txs: map<TxId, Coord>, h: seq<Entry>, applied: map<RangeId, seq<Entry>>) {
    forall i, j, r :: 0 <= i < j < |h| && h[i].id in txs && h[j].id in txs
                      && SamePlace(txs[h[i].id], txs[h[j].id], r) ==>
                        r in applied && h[i] in applied[r]
  }

  /** What has been applied of one place has been applied in decision order. */
  ghost predicate InOrder(txs: map<TxId, Coord>, h: seq<Entry>, r: RangeId, ap: seq<Entry>) {
    forall i, j :: 0 <= i < j < |ap| && ap[i].id in txs && ap[j].id in txs
                   && SamePlace(txs[ap[i].id], txs[ap[j].id], r) ==>
                     Before(h, ap[i], ap[j])
  }

  ghost predicate Sequenced(s: System) {
    && Firsts(s.txs, s.history, s.applied)
    && forall r :: r in s.applied ==> InOrder(s.txs, s.history, r, s.applied[r])
  }

  lemma AppliedCommitted(s: System, r: RangeId, i: nat)
    requires Weak(s) && r in s.applied && i < |s.applied[r]|
    ensures s.applied[r][i] in s.history && s.applied[r][i].id in s.txs && s.txs[s.applied[r][i].id].phase.Committed?
  {
    hide PlacesOk, TxOk, SentOk, Known, TermOk, Released;
    assert AppliedOk(s.history, r, s.applied[r]);
    var j :| 0 <= j < |s.history| && s.history[j] == s.applied[r][i];
    assert Listed(s.txs, s.history[j]);
  }

  /** Another transaction in the history leaves the order of those applied. */
  lemma InOrderKept(txs: map<TxId, Coord>, txs': map<TxId, Coord>, h: seq<Entry>, h': seq<Entry>, r: RangeId,
      ap: seq<Entry>)
    requires InOrder(txs, h, r, ap) && h <= h' && |h'| <= |h| + 1 && (h < h' ==> h'[|h|] !in ap)
    requires forall i :: 0 <= i < |ap| ==> ap[i].id in txs && ap[i].id in txs' && txs'[ap[i].id] == txs[ap[i].id]
    ensures InOrder(txs', h', r, ap)
  {
    hide SamePlace;
    forall i, j | 0 <= i < j < |ap| && SamePlace(txs[ap[i].id], txs[ap[j].id], r) ensures Before(h', ap[i], ap[j]) {
      assert Before(h, ap[i], ap[j]);
    }
  }

  lemma UndecidedSequenced(s: System, s': System)
    requires Weak(s) && Sequenced(s) && Undecided(s, s')
    ensures Sequenced(s')
  {
    hide Weak, Before, InOrder, SamePlace;
    forall i | 0 <= i < |s.history|
      ensures s.history[i].id in s.txs && s.history[i].id in s'.txs && s'.txs[s.history[i].id] == s.txs[s.history[i].id]
    {
      HistoryCommitted(s, i);
    }
    forall r | r in s'.applied ensures InOrder(s'.txs, s'.history, r, s'.applied[r]) {
      forall i | 0 <= i < |s.applied[r]|
        ensures s.applied[r][i].id in s.txs && s.applied[r][i].id in s'.txs
        ensures s'.txs[s.applied[r][i].id] == s.txs[s.applied[r][i].id]
      {
        AppliedCommitted(s, r, i);
      }
      InOrderKept(s.txs, s'.txs, s.history, s'.history, r, s.applied[r]);
    }
  }

  /**
   * When a transaction is decided at a place it holds the lock there, so that all decided there before have been
   * applied.
   */
  lemma DecideFirsts(s: System, t: TxId, e: Epoch)
    requires Weak(s) && Order(s) && Sequenced(s) && Is(s, t, Preparing) && Commits(s, t, e)
    requires s.txs[t].votes.Keys == s.txs[t].parts.Keys
    ensures var s' := DecideStep(s, t, e); Firsts(s'.txs, s'.history, s'.applied)
  {
    hide Weak, Order, InOrder, LeasesCover, Decisions.TryCommit;
    var s' := DecideStep(s, t, e);
    NotInHistory(s, t);
    AskedKnown(s, t);
    forall i, j, r | 0 <= i < j < |s'.history| && s'.history[i].id in s'.txs && s'.history[j].id in s'.txs
                     && SamePlace(s'.txs[s'.history[i].id], s'.txs[s'.history[j].id], r)
      ensures r in s'.applied && s'.history[i] in s'.applied[r]
    {
      assert s'.history[i] == s.history[i] && s'.history[i].id != t;
      if j == |s.history| {
        HistoryCommitted(s, i);
        EarlierApplied(s, t, s.history[i].id, r);
      } else {
        assert s'.history[j] == s.history[j] && s'.history[j].id != t;
      }
    }
  }

  lemma EarlierApplied(s: System, t: TxId, u: TxId, r: RangeId)
    requires Weak(s) && Order(s) && Is(s, t, Preparing) && r in s.txs[t].votes && r in s.txs[t].parts
    requires u in s.txs && s.txs[u].phase.Committed? && SamePlace(s.txs[u], s.txs[t], r)
    ensures r in s.applied && Entry(u, s.txs[u].phase.epoch, s.txs[u].parts) in s.applied[r]
  {
    hide Weak, Order, RecordKept;
    AskedKnown(s, t);
    HoldsWhereVoted(s, t, (r, s.txs[t].asked[r]));
    TrackedAt(s, u, r);
  }

  lemma DecideSequenced(s: System, t: TxId, e: Epoch)
    requires Weak(s) && Order(s) && Sequenced(s) && Is(s, t, Preparing) && Commits(s, t, e)
    requires s.txs[t].votes.Keys == s.txs[t].parts.Keys
    ensures Sequenced(DecideStep(s, t, e))
  {
    hide Weak, Order, Firsts, Before, InOrder, LeasesCover, Decisions.TryCommit;
    DecideFirsts(s, t, e);
    var s' := DecideStep(s, t, e);
    forall r | r in s'.applied ensures InOrder(s'.txs, s'.history, r, s'.applied[r]) {
      var ap := s.applied[r];
      forall i | 0 <= i < |ap| ensures ap[i].id != t && ap[i].id in s.txs { AppliedCommitted(s, r, i); }
      InOrderKept(s.txs, s'.txs, s.history, s'.history, r, ap);
    }
  }

  /** A commit that is being applied was decided after all that have been applied of its place. */
  lemma AppliedLast(s: System, t: TxId, r: RangeId, m: nat, i: nat)
    requires Weak(s) && Sequenced(s) && t in s.txs && s.txs[t].phase.Committed? && (r, m) in s.places
    requires Holds(s.places[(r, m)], t)
    requires r in s.applied && i < |s.applied[r]| && s.applied[r][i].id in s.txs
    requires SamePlace(s.txs[s.applied[r][i].id], s.txs[t], r)
    ensures Before(s.history, s.applied[r][i], Entry(t, s.txs[t].phase.epoch, s.txs[t].parts))
  {
    hide Weak, InOrder, Holds;
    var h, u, x := s.history, s.applied[r][i], Entry(t, s.txs[t].phase.epoch, s.txs[t].parts);
    NotYetApplied(s, t, (r, m));
    forall a, b | 0 <= a < |h| && 0 <= b < |h| && h[a] == u && h[b] == x ensures a < b {
      assert SamePlace(s.txs[h[b].id], s.txs[h[a].id], r);
    }
  }

  lemma NotYetApplied(s: System, t: TxId, pl: Place)
    requires Weak(s) && pl in s.places && Holds(s.places[pl], t)
    ensures pl.0 in s.applied && forall i :: 0 <= i < |s.applied[pl.0]| ==> s.applied[pl.0][i].id != t
  {
    hide PlacesOk, TxOk, SentOk, Known, TermOk, HistoryOk, AppliedOk;
    assert Released(s.places[pl], s.applied[pl.0]);
  }

  lemma CommitSequenced(s: System, t: TxId, r: RangeId, m: nat)
    requires Weak(s) && Sequenced(s) && Enabled(s, RangeCommit(t, r, m, true)) && Holds(s.places[(r, m)], t)
    ensures Sequenced(Apply(s, RangeCommit(t, r, m, true)))
  {
    hide Weak, Before, Written, Commit;
    var s' := Apply(s, RangeCommit(t, r, m, true));
    var x := Entry(t, s.txs[t].phase.epoch, s.txs[t].parts);
    assert s'.txs == s.txs && s'.history == s.history && s'.applied == s.applied[r := s.applied[r] + [x]];
    hide Apply, Enabled;
    forall q | q in s'.applied ensures InOrder(s'.txs, s'.history, q, s'.applied[q]) {
      assert InOrder(s.txs, s.history, q, s.applied[q]);
      if q == r {
        var ap := s.applied[r] + [x];
        forall i, j | 0 <= i < j < |ap| && ap[i].id in s.txs && ap[j].id in s.txs
                      && SamePlace(s.txs[ap[i].id], s.txs[ap[j].id], r)
          ensures Before(s.history, ap[i], ap[j])
        {
          if j == |s.applied[r]| { AppliedLast(s, t, r, m, i); }
        }
      }
    }
  }

  lemma DecideStepSequenced(s: System, t: TxId, readEpoch: Epoch, e: Epoch)
    requires Weak(s) && Order(s) && Sequenced(s) && Enabled(s, Decide(t, readEpoch, e))
    ensures Sequenced(Apply(s, Decide(t, readEpoch, e)))
  {
    hide Weak, Order, Sequenced, LeasesCover;
    if Commits(s, t, e) { DecideSequenced(s, t, e); }
    else { UndecidedSequenced(s, Apply(s, Decide(t, readEpoch, e))); }
  }

  lemma RangeCommitSequenced(s: System, t: TxId, r: RangeId, m: nat, logged: bool)
    requires Weak(s) && Sequenced(s) && Enabled(s, RangeCommit(t, r, m, logged))
    ensures Sequenced(Apply(s, RangeCommit(t, r, m, logged)))
  {
    hide Weak, Sequenced, Written, Commit, CommitLogFailure;
    if logged && Holds(s.places[(r, m)], t) { CommitSequenced(s, t, r, m); }
    else { UndecidedSequenced(s, Apply(s, RangeCommit(t, r, m, logged))); }
  }

  lemma StepSequenced(s: System, a: Action)
    requires Weak(s) && Order(s) && Sequenced(s) && Enabled(s, a)
    ensures Sequenced(Apply(s, a))
  {
    hide Weak, Order, Sequenced, Apply;
    if a.Decide? {
      DecideStepSequenced(s, a.t, a.readEpoch, a.e);
    } else if a.RangeCommit? {
      RangeCommitSequenced(s, a.t, a.r, a.m, a.logged);
    } else {
      if AtLeader(a) { LeaderStepFrame(s, a); } else { CoordFrame(s, a); }
      UndecidedSequenced(s, Apply(s, a));
    }
  }

  lemma InitialSequenced(s: System)
    requires Initial(s)
    ensures Sequenced(s)
  {
    forall r | r in s.applied ensures s.applied[r] == [] {
      assert (r, s.stores[r].serving) in s.places;
      assert FirstLoad(s.stores[r], s.places[(r, s.stores[r].serving)], s.floors[(r, s.stores[r].serving)],
                       s.applied[r], s.base[r]);
    }
  }

  lemma {:induction false} RunSequenced(s: System, acts: seq<Action>)
    requires Weak(s) && Order(s) && Sequenced(s) && IsRun(s, acts)
    ensures Sequenced(After(s, acts))
    decreases |acts|
  {
    hide Weak, Order, Sequenced;
    if acts != [] {
      StepWeak(s, acts[0]);
      StepOrder(s, acts[0]);
      StepSequenced(s, acts[0]);
      RunSequenced(Apply(s, acts[0]), acts[1..]);
    }
  }
}
