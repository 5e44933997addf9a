/** Every step of the commit protocol that does no harm keeps the data invariant. */
module ProtocolSteps {
  import opened Base
  import opened Leasing
  import opened Ranges
  import opened Protocol
  import opened ProtocolLocks
  import opened ProtocolOrder
  import opened ProtocolInvariant
  import Locking
  import Records
  import Overlays

  // ---------------------------------------------------------------- coordinators

  lemma ServingNumber(s: System, r: RangeId)
    requires Weak(s) && r in s.stores
    ensures ServingPlace(s, r) in s.places && s.stores[r].serving > 0
  {
    hide Weak;
    WeakShaped(s);
    PlaceNumber(s, ServingPlace(s, r));
  }

  lemma PartsKnown(s: System, t: TxId)
    requires Weak(s) && t in s.txs
    ensures s.txs[t].parts.Keys <= s.stores.Keys
  {
    hide Weak, TxOk;
    CoordOk(s, t);
  }

  /** A coordinator that stays live, has read nothing more and has no new vote. */
  ghost predicate Quiet(c: Coord, c': Coord) {
    && Live(c) && Live(c')
    && (forall r :: r in c'.parts ==>
          && c'.parts[r].leader == Overlays.PartOf(c.parts, r).leader
          && c'.parts[r].seen == Overlays.PartOf(c.parts, r).seen)
    && (forall r :: c'.phase.Preparing? && r in c'.votes ==>
          && c.phase.Preparing? && r in c.votes && c'.votes[r] == c.votes[r] && SamePlace(c, c', r) && r in c.parts)
  }

  lemma QuietPair(c: Coord, c': Coord, t: TxId, r: RangeId, m: nat, mem: Memory, tb: Records.Table)
    requires r in c'.parts && Quiet(c, c') && m > 0 && (r in c.parts ==> PairOk(c, t, r, m, mem, tb))
    ensures PairOk(c', t, r, m, mem, tb)
  {
  }

  lemma QuietData(s: System, t: TxId, c': Coord)
    requires Data(s) && t in s.txs && Quiet(s.txs[t], c') && c'.parts.Keys <= s.stores.Keys
    requires forall r :: r in s.stores ==> s.stores[r].serving > 0
    ensures Data(SetCoord(s, t, c'))
  {
    assert Live(s.txs[t]) && Live(c');
    hide Data, PairOk, Quiet;
    forall r | r in c'.parts
      ensures ServingPlace(s, r) in s.places
      ensures PairOk(c', t, r, s.stores[r].serving, s.places[ServingPlace(s, r)], s.stores[r].table)
    {
      RangeAt(s, r);
      if r in s.txs[t].parts { PairAt(s, t, r); }
      QuietPair(s.txs[t], c', t, r, s.stores[r].serving, s.places[ServingPlace(s, r)], s.stores[r].table);
    }
    CoordData(s, t, c');
  }

  lemma Numbers(s: System)
    requires Weak(s)
    ensures forall r :: r in s.stores ==> s.stores[r].serving > 0
  {
    hide Weak;
    forall r | r in s.stores ensures s.stores[r].serving > 0 { ServingNumber(s, r); }
  }

  lemma BufferData(s: System, a: Action)
    requires Inv(s) && Enabled(s, a) && (a.DoPut? || a.DoDel? || a.StartCommit?)
    ensures Data(Apply(s, a))
  {
    hide Weak, Order, Data, TxOk, SentOk;
    PartsKnown(s, a.t);
    AskedKnown(s, a.t);
    Numbers(s);
    QuietData(s, a.t, Apply(s, a).txs[a.t]);
  }

  lemma AbortedPair(c: Coord, t: TxId, r: RangeId, m: nat, mem: Memory, tb: Records.Table)
    requires r in c.parts && c.phase.Aborted?
    ensures PairOk(c, t, r, m, mem, tb)
  {
  }

  lemma GiveUpData(s: System, t: TxId, c': Coord)
    requires Inv(s) && t in s.txs && !s.txs[t].phase.Committed? && c'.phase.Aborted? && c'.parts == s.txs[t].parts
    ensures Data(SetCoord(s, t, c'))
  {
    hide Weak, Order, Data, PairOk;
    PartsKnown(s, t);
    forall r | r in c'.parts
      ensures ServingPlace(s, r) in s.places
      ensures PairOk(c', t, r, s.stores[r].serving, s.places[ServingPlace(s, r)], s.stores[r].table)
    {
      RangeAt(s, r);
      AbortedPair(c', t, r, s.stores[r].serving, s.places[ServingPlace(s, r)], s.stores[r].table);
    }
    CoordData(s, t, c');
  }

  lemma BeginData(s: System, t: TxId)
    requires Inv(s) && t !in s.txs
    ensures Data(Apply(s, Begin(t)))
  {
    hide Weak, Order, Data;
    assert forall r :: r !in NEW_COORD.parts;
    CoordData(s, t, NEW_COORD);
    SameData(SetCoord(s, t, NEW_COORD), Apply(s, Begin(t)));
  }

  /** The data invariant does not look at decision rows, floors or applied lists. */
  lemma SameData(s: System, s': System)
    requires Data(s) && s' == s.(rows := s'.rows, floors := s'.floors)
    ensures Data(s')
  {
    assert Shaped(s') && AllFit(s') by { hide AllServed, AllPaired, ReadsFit; }
    hide Data, Shaped, AllFit;
    forall r | r in s'.stores
      ensures r in s'.base && ServingPlace(s', r) in s'.places && Served(s', r)
    {
      SameServed(s, s', r);
    }
    forall u, r | u in s'.txs && r in s'.txs[u].parts
      ensures r in s'.stores && r in s'.base && ServingPlace(s', r) in s'.places && Paired(s', u, r)
    {
      SamePaired(s, s', u, r);
    }
    LocalAll(s');
  }

  lemma SameServed(s: System, s': System, r: RangeId)
    requires Data(s) && s' == s.(rows := s'.rows, floors := s'.floors) && r in s.stores
    ensures r in s'.base && ServingPlace(s', r) in s'.places && Served(s', r)
  {
    hide Data, RowsOk, Current;
    RangeAt(s, r);
  }

  lemma SamePaired(s: System, s': System, u: TxId, r: RangeId)
    requires Data(s) && s' == s.(rows := s'.rows, floors := s'.floors) && u in s.txs && r in s.txs[u].parts
    ensures r in s'.stores && r in s'.base && ServingPlace(s', r) in s'.places && Paired(s', u, r)
  {
    hide Data, PairOk, LateOk;
    PairAt(s, u, r);
  }

  /** A reply under the serving number keeps the reads current; one under a replaced number is not relied upon. */
  lemma ReplyPair(c: Coord, t: TxId, r: RangeId, m: nat, k: Bytes, val: Option<Bytes>, q: RangeId, serving: nat,
      mem: Memory,
                  tb: Records.Table)
    requires q in c.parts && r in c.parts && PairOk(c, t, q, serving, mem, tb) && PartOk(c.parts[r]) && c.phase.Running?
    requires m > 0
    requires c.parts[r].leader == Overlays.UNSET_LEADER || c.parts[r].leader == m
    requires q == r && m == serving ==> val == Records.Get(tb, k)
    ensures PairOk(TakeReply(c, r, k, val, m), t, q, serving, mem, tb)
  {
  }

  lemma HolderListed(s: System, t: TxId, pl: Place)
    requires Weak(s) && pl in s.places && Holds(s.places[pl], t)
    ensures t in s.txs && pl.0 in s.txs[t].parts
  {
    hide PlacesOk, TxOk, SentOk, TermOk, HistoryOk, AppliedOk, Released;
    assert Known(s.txs, pl, s.places[pl]);
  }

  lemma FinishGetData(s: System, t: TxId, r: RangeId, m: nat, k: Bytes)
    requires Inv(s) && Enabled(s, FinishGet(t, r, m, k))
    ensures Data(Apply(s, FinishGet(t, r, m, k)))
  {
    hide Weak, Order, Data, PairOk, PartOk, Records.Get;
    var pl := (r, m);
    var c, val := s.txs[t], Records.Get(s.stores[r].table, k);
    HolderListed(s, t, pl);
    var c' := TakeReply(c, r, k, val, m);
    if c.parts[r].leader != Overlays.UNSET_LEADER && c.parts[r].leader != m {
      GiveUpData(s, t, c');
    } else {
      PlaceNumber(s, pl);
      PartsKnown(s, t);
      DisjointPart(s, t, r);
      forall q | q in c'.parts
        ensures ServingPlace(s, q) in s.places
        ensures PairOk(c', t, q, s.stores[q].serving, s.places[ServingPlace(s, q)], s.stores[q].table)
      {
        PairAt(s, t, q);
        ReplyPair(c, t, r, m, k, val, q, s.stores[q].serving, s.places[ServingPlace(s, q)], s.stores[q].table);
      }
      CoordData(s, t, c');
    }
  }

  // ---------------------------------------------------------------- the memory of one place

  lemma RowsRaise(mem: Memory, mem': Memory, tb: Records.Table)
    requires RowsOk(mem, tb)
    requires mem.lease.lo <= mem'.lease.lo && mem.lease.hi <= mem'.lease.hi && mem.highest <= mem'.highest
    ensures RowsOk(mem', tb)
  {
  }

  lemma MemoryPair(c: Coord, u: TxId, r: RangeId, m: nat, mem: Memory, mem': Memory, tb: Records.Table)
    requires r in c.parts && PairOk(c, u, r, m, mem, tb) && mem.lease.hi <= mem'.lease.hi
    requires c.phase.Committed? && Holds(mem', u) ==> Holds(mem, u)
    ensures PairOk(c, u, r, m, mem', tb)
  {
    hide Fresh, Overlays.UpTo;
  }

  /** The same decided transactions hold the lock. */
  ghost predicate SameHolders(txs: map<TxId, Coord>, mem: Memory, mem': Memory) {
    forall u :: u in txs && txs[u].phase.Committed? ==> (Holds(mem', u) <==> Holds(mem, u))
  }

  lemma DueSame(txs: map<TxId, Coord>, mem: Memory, mem': Memory, up: bool, r: RangeId)
    requires SameHolders(txs, mem, mem')
    ensures DueAt(txs, mem', up, r) == DueAt(txs, mem, up, r)
  {
    var h, h' := mem.lock.holder, mem'.lock.holder;
    assert h.Some? ==> Holds(mem, h.value);
    assert h'.Some? ==> Holds(mem', h'.value);
  }

  /**
   * A step at any place that takes the lock from nobody decided and gives it to nobody decided, and lowers no
   * epoch.
   */
  lemma MemoryData(s: System, pl: Place, mem: Memory)
    requires Inv(s) && pl in s.places && SameHolders(s.txs, s.places[pl], mem)
    requires s.places[pl].lease.lo <= mem.lease.lo && s.places[pl].lease.hi <= mem.lease.hi
    requires s.places[pl].highest <= mem.highest
    ensures Data(SetMemory(s, pl, mem))
  {
    hide Weak, Order, Data, Local, SameHolders;
    PlaceKnown(s, pl);
    var s' := SetMemory(s, pl, mem);
    MemoryShaped(s, pl, mem);
    MemoryServed(s, pl, mem);
    forall u | u in s'.txs && pl.0 in s'.txs[u].parts ensures Paired(s', u, pl.0) { MemoryPaired(s, pl, mem, u); }
    LocalData(s, s', pl.0);
  }

  lemma MemoryShaped(s: System, pl: Place, mem: Memory)
    requires Data(s) && pl in s.places
    ensures Shaped(SetMemory(s, pl, mem)) && Local(s, SetMemory(s, pl, mem), pl.0)
  {
    hide AllServed, AllPaired, AllFit;
  }

  lemma MemoryServed(s: System, pl: Place, mem: Memory)
    requires Data(s) && pl in s.places && pl.0 in s.stores && SameHolders(s.txs, s.places[pl], mem)
    requires s.places[pl].lease.lo <= mem.lease.lo && s.places[pl].lease.hi <= mem.lease.hi
    requires s.places[pl].highest <= mem.highest
    ensures var s' := SetMemory(s, pl, mem); pl.0 in s'.base && ServingPlace(s', pl.0) in s'.places && Served(s', pl.0)
  {
    hide Data, RowsOk, Current, DueAt, SameHolders;
    RangeAt(s, pl.0);
    if pl == ServingPlace(s, pl.0) {
      RowsRaise(s.places[pl], mem, s.stores[pl.0].table);
      DueSame(s.txs, s.places[pl], mem, pl !in s.down, pl.0);
    }
  }

  lemma MemoryPaired(s: System, pl: Place, mem: Memory, u: TxId)
    requires Data(s) && pl in s.places && pl.0 in s.stores && SameHolders(s.txs, s.places[pl], mem)
    requires s.places[pl].lease.hi <= mem.lease.hi && u in s.txs && pl.0 in s.txs[u].parts
    ensures var s' := SetMemory(s, pl, mem);
            pl.0 in s'.base && ServingPlace(s', pl.0) in s'.places && Paired(s', u, pl.0)
  {
    hide Data, PairOk, LateOk, DueAt;
    PairAt(s, u, pl.0);
    if pl == ServingPlace(s, pl.0) {
      MemoryPair(s.txs[u], u, pl.0, pl.1, s.places[pl], mem, s.stores[pl.0].table);
      DueSame(s.txs, s.places[pl], mem, pl !in s.down, pl.0);
    }
  }

  lemma RequestData(s: System, t: TxId, pl: Place)
    requires Inv(s) && t in s.txs && !s.txs[t].phase.Committed? && pl in s.places
    ensures Data(SetMemory(s, pl, Request(s.places[pl], t)))
  {
    hide Weak, Order, Data, Locking.Acquire;
    forall u | u in s.txs && s.txs[u].phase.Committed?
      ensures Holds(Request(s.places[pl], t), u) <==> Holds(s.places[pl], u)
    {
      RequestLocally(s.places[pl], t, u);
    }
    MemoryData(s, pl, Request(s.places[pl], t));
  }

  lemma AskGetData(s: System, t: TxId, r: RangeId, m: nat)
    requires Inv(s) && Enabled(s, AskGet(t, r, m))
    ensures Data(Apply(s, AskGet(t, r, m)))
  {
    hide Weak, Order, Data, Request;
    RequestData(s, t, (r, m));
    PartsKnown(s, t);
    Numbers(s);
    var s1, c' := SetMemory(s, (r, m), Request(s.places[(r, m)], t)), Asking(s.txs[t], r, m);
    QuietData(s1, t, c');
    assert SetCoord(s1, t, c') == Apply(s, AskGet(t, r, m));
  }

  lemma AskPrepareData(s: System, t: TxId, r: RangeId, m: nat)
    requires Inv(s) && Enabled(s, AskPrepare(t, r, m))
    ensures Data(Apply(s, AskPrepare(t, r, m)))
  {
    hide Weak, Order, Data, Request;
    var c, pl := s.txs[t], (r, m);
    RequestData(s, t, pl);
    assert SetMemory(s, pl, s.places[pl]) == s;
    PartsKnown(s, t);
    AskedKnown(s, t);
    Numbers(s);
    var s1, c' := SetMemory(s, pl, Asked(c, t, r, s.places[pl])), c.(asked := c.asked[r := m]);
    QuietData(s1, t, c');
    assert SetCoord(s1, t, c') == Apply(s, AskPrepare(t, r, m));
  }

  /** A vote of the serving leader bounds every row stored so far; a vote of a replaced one is not relied upon. */
  lemma VotePair(c: Coord, t: TxId, r: RangeId, v: Vote, q: RangeId, m: nat, mem: Memory, tb: Records.Table)
    requires c.phase.Preparing? && r in c.parts && q in c.parts && r in c.asked && PairOk(c, t, q, m, mem, tb)
    requires RowsOk(mem, tb)
    requires q == r && c.asked[r] == m ==> v == VoteOf(mem)
    ensures PairOk(c.(votes := c.votes[r := v]), t, q, m, mem, tb)
  {
    hide Fresh;
  }

  lemma FinishPrepareData(s: System, t: TxId, r: RangeId, rec: Overlays.Record)
    requires Inv(s) && Enabled(s, FinishPrepare(t, r, rec))
    ensures Data(Apply(s, FinishPrepare(t, r, rec)))
  {
    hide Weak, Order, Data, RowsOk, Current, PairOk, Overlays.Enumerates, LateOk;
    var c := s.txs[t];
    var pl := (r, c.asked[r]);
    var mem, v := Prepare(s.places[pl], t, rec), VoteOf(s.places[pl]);
    MemoryData(s, pl, mem);
    var s1, c' := SetMemory(s, pl, mem), c.(votes := c.votes[r := v]);
    PartsKnown(s, t);
    forall q | q in c'.parts
      ensures ServingPlace(s1, q) in s1.places
      ensures PairOk(c', t, q, s1.stores[q].serving, s1.places[ServingPlace(s1, q)], s1.stores[q].table)
    {
      PairAt(s1, t, q);
      RangeAt(s1, q);
      VotePair(c, t, r, v, q, s1.stores[q].serving, s1.places[ServingPlace(s1, q)], s1.stores[q].table);
    }
    CoordData(s1, t, c');
    assert SetCoord(s1, t, c') == Apply(s, FinishPrepare(t, r, rec));
  }

  lemma RangeAbortData(s: System, t: TxId, r: RangeId, m: nat)
    requires Inv(s) && Enabled(s, RangeAbort(t, r, m))
    ensures Data(Apply(s, RangeAbort(t, r, m)))
  {
    hide Weak, Order, Data, Locking.Release, Released;
    var pl := (r, m);
    var mem := Abort(s.places[pl], t);
    if Holds(s.places[pl], t) { ReleasedAfterRelease(s, pl, mem); }
    MemoryData(s, pl, mem);
  }

  // ---------------------------------------------------------------- the row of a range

  /** The data invariant looks at the serving number and the table only. */
  lemma RowData(s: System, r: RangeId, st: Store)
    requires Data(s) && r in s.stores && st.serving == s.stores[r].serving && st.table == s.stores[r].table
    ensures Data(s.(stores := s.stores[r := st]))
  {
    hide Data, Local;
    var s' := s.(stores := s.stores[r := st]);
    RowShaped(s, r, st);
    RowServed(s, r, st);
    forall u | u in s'.txs && r in s'.txs[u].parts ensures Paired(s', u, r) { RowPaired(s, r, st, u); }
    LocalData(s, s', r);
  }

  lemma RowShaped(s: System, r: RangeId, st: Store)
    requires Data(s) && r in s.stores && st.serving == s.stores[r].serving
    ensures var s' := s.(stores := s.stores[r := st]); Shaped(s') && Local(s, s', r)
  {
    hide AllServed, AllPaired, AllFit;
    var s' := s.(stores := s.stores[r := st]);
    assert s'.stores.Keys == s.stores.Keys;
  }

  lemma RowServed(s: System, r: RangeId, st: Store)
    requires Data(s) && r in s.stores && st.serving == s.stores[r].serving && st.table == s.stores[r].table
    ensures var s' := s.(stores := s.stores[r := st]); r in s'.base && ServingPlace(s', r) in s'.places && Served(s', r)
  {
    hide Data, RowsOk, Current;
    RangeAt(s, r);
  }

  lemma RowPaired(s: System, r: RangeId, st: Store, u: TxId)
    requires Data(s) && r in s.stores && st.serving == s.stores[r].serving && st.table == s.stores[r].table
    requires u in s.txs && r in s.txs[u].parts
    ensures var s' := s.(stores := s.stores[r := st]);
            r in s'.base && ServingPlace(s', r) in s'.places && Paired(s', u, r)
  {
    hide Data, PairOk, LateOk;
    PairAt(s, u, r);
  }

  lemma RenewData(s: System, r: RangeId, m: nat, epoch: Epoch, n: nat)
    requires Inv(s) && Enabled(s, RenewLeaseAt(r, m, epoch, n))
    ensures Data(Apply(s, RenewLeaseAt(r, m, epoch, n)))
  {
    hide Weak, Order, Data;
    if s.stores[r].leader == m {
      FloorKnown(s, (r, m));
      var mem := Renew(s.places[(r, m)], epoch, n);
      RenewalBounds(s.places[(r, m)].lease, epoch, n);
      MemoryData(s, (r, m), mem);
      RowData(SetMemory(s, (r, m), mem), r, s.stores[r].(lease := mem.lease));
    }
  }

  // ---------------------------------------------------------------- a commit at a place

  /** A commit decides what the keys it may set read as, and adds one row for each key it writes. */
  lemma CommitTable(mem: Memory, tb: Records.Table, t: TxId, e: Epoch, p: Overlays.Participant)
    requires Records.WellFormed(tb) && RecordKept(p, t, mem) && Overlays.Disjoint(p) && Holds(mem, t)
    ensures var tb' := Written(mem, tb, t, e);
            && Records.WellFormed(tb')
            && (forall k :: Records.Get(tb', k) == if MaySet(tb, p, e, k) then Wrote(p, k) else Records.Get(tb, k))
            && (forall k, e' :: HasRow(tb', k, e') <==> HasRow(tb, k, e') || (e' == e && Overlays.Buffered(p, k)))
  {
    hide Overlays.ApplyRecord, Overlays.Enumerates, Records.WellFormed, Records.Get, Overlays.Disjoint;
    var rec := mem.prepared[t];
    Overlays.ApplyRecordRows(tb, rec, p, e, [], 0);
    forall k
      ensures Records.Get(Written(mem, tb, t, e), k) == if MaySet(tb, p, e, k) then Wrote(p, k) else Records.Get(tb, k)
    {
      Overlays.ApplyRecordLate(tb, rec, p, e, k);
    }
    forall k, e'
      ensures HasRow(Written(mem, tb, t, e), k, e') <==> HasRow(tb, k, e') || (e' == e && Overlays.Buffered(p, k))
    {
      Overlays.ApplyRecordRows(tb, rec, p, e, k, e');
    }
  }

  /** A decided epoch lies within what was leased under the number it was decided under. */
  lemma EpochLeased(s: System, t: TxId, r: RangeId)
    requires Weak(s) && IsCommitted(s.txs, t, r)
    ensures r in s.txs[t].asked
    ensures var pl := (r, s.txs[t].asked[r]);
            pl in s.places && pl in s.floors && s.floors[pl] <= s.txs[t].phase.epoch <= s.places[pl].lease.hi
  {
    hide Weak;
    CoordOk(s, t);
    assert r in s.txs[t].votes && Covers(s.txs[t].votes[r].lease, s.txs[t].phase.epoch);
  }

  lemma LeasesApart(s: System, pl: Place, q: Place)
    requires Weak(s) && pl in s.places && q in s.places && pl.0 == q.0 && pl.1 < q.1
    ensures q in s.floors && s.places[pl].lease.hi < s.floors[q] <= s.places[q].lease.lo <= s.places[q].lease.hi
  {
    FloorKnown(s, q);
    hide Latest, Placed, TxOk, SentOk, Known, TermOk, HistoryOk, AppliedOk, Released;
  }

  /** A late commit's epoch is below anything the serving leader leases, promises or decides. */
  lemma LateIsOld(s: System, t: TxId, r: RangeId)
    requires Weak(s) && Late(s, t, r)
    ensures var pl := ServingPlace(s, r);
            && pl in s.places && pl in s.floors && s.txs[t].phase.epoch < s.floors[pl] <= s.places[pl].lease.lo
            && s.places[pl].lease.lo <= s.places[pl].lease.hi && s.txs[t].asked[r] < s.stores[r].serving
  {
    hide Weak;
    EpochLeased(s, t, r);
    ServingNumber(s, r);
    PlaceNumber(s, (r, s.txs[t].asked[r]));
    LeasesApart(s, (r, s.txs[t].asked[r]), ServingPlace(s, r));
  }

  lemma TermAt(s: System, u: TxId, pl: Place)
    requires Weak(s) && u in s.txs && pl in s.places && pl.0 in s.txs[u].parts
    ensures TermOk(s.txs[u], u, pl, s.places[pl])
  {
    hide PlacesOk, TxOk, SentOk, Known, TermOk, HistoryOk, AppliedOk, Released;
  }

  /** A decided transaction that holds a lock holds it where it voted. */
  lemma HeldWhereAsked(s: System, t: TxId, pl: Place)
    requires Weak(s) && pl in s.places && Holds(s.places[pl], t) && IsCommitted(s.txs, t, pl.0)
    ensures pl.0 in s.txs[t].asked && s.txs[t].asked[pl.0] == pl.1
  {
    hide Weak;
    TermAt(s, t, pl);
  }

  ghost predicate Ready(s: System, t: TxId, pl: Place) {
    && Inv(s) && pl in s.places && pl !in s.down && pl.0 in s.stores && pl.0 in s.base && pl.0 in s.applied
    && IsCommitted(s.txs, t, pl.0) && Holds(s.places[pl], t)
  }

  /** The system after the commit has been applied. */
  function Applied(s: System, t: TxId, pl: Place): System
    requires pl in s.places && pl.0 in s.stores && pl.0 in s.applied && t in s.txs && s.txs[t].phase.Committed?
  {
    var mem, e := s.places[pl], s.txs[t].phase.epoch;
    Changed(s, pl.0, s.stores[pl.0].(table := Written(mem, s.stores[pl.0].table, t, e)), pl.1, Commit(mem, t, e),
            s.applied[pl.0] + [Entry(t, e, s.txs[t].parts)])
  }

  lemma AppliedLocal(s: System, t: TxId, pl: Place)
    requires Ready(s, t, pl)
    ensures Local(s, Applied(s, t, pl), pl.0) && Shaped(Applied(s, t, pl))
  {
    hide Weak, Order, AllServed, AllPaired, AllFit, Written, Commit;
    var s' := Applied(s, t, pl);
    assert s'.stores.Keys == s.stores.Keys && s'.applied.Keys == s.applied.Keys;
  }

  lemma AppliedFacts(s: System, t: TxId, pl: Place)
    requires Ready(s, t, pl)
    ensures var s', mem, e := Applied(s, t, pl), s.places[pl], s.txs[t].phase.epoch;
            && s'.txs == s.txs && s'.history == s.history && s'.base == s.base && s'.down == s.down && pl.0 in s'.stores
            && s'.stores[pl.0].serving == s.stores[pl.0].serving
            && s'.stores[pl.0].table == Written(mem, s.stores[pl.0].table, t, e)
            && s'.places == s.places[pl := Commit(mem, t, e)]
  {
    hide Inv, Written, Commit;
  }

  /** Who is late stays so, save the one just applied. */
  lemma LateBefore(s: System, t: TxId, pl: Place, u: TxId)
    requires Ready(s, t, pl) && Late(Applied(s, t, pl), u, pl.0)
    requires forall w :: Holds(Commit(s.places[pl], t, s.txs[t].phase.epoch), w) ==>
               w in s.txs && !s.txs[w].phase.Committed?
    ensures Late(s, u, pl.0)
  {
    AppliedFacts(s, t, pl);
    hide Inv, Applied, Written, Commit;
  }

  /** What is known before a commit is applied at some place. */
  lemma ReadyFacts(s: System, t: TxId, pl: Place)
    requires Ready(s, t, pl)
    ensures Overlays.Disjoint(s.txs[t].parts[pl.0]) && RecordKept(s.txs[t].parts[pl.0], t, s.places[pl])
    ensures ServingPlace(s, pl.0) in s.places && Records.WellFormed(s.stores[pl.0].table)
    ensures pl.0 in s.txs[t].asked && s.txs[t].asked[pl.0] == pl.1
    ensures forall u :: Holds(Commit(s.places[pl], t, s.txs[t].phase.epoch), u) ==>
              u in s.txs && !s.txs[u].phase.Committed?
  {
    hide Weak, Order, Data, TrackAt, Current, Released, Locking.Release;
    DisjointPart(s, t, pl.0);
    HeldWhereAsked(s, t, pl);
    TrackedAt(s, t, pl.0);
    RangeAt(s, pl.0);
    ReleasedAfterRelease(s, pl, Commit(s.places[pl], t, s.txs[t].phase.epoch));
    assert RecordKept(s.txs[t].parts[pl.0], t, s.places[pl]) by {
      KeptWhileHeld(s.txs[t], t, pl.0, s.places[pl], s.applied[pl.0]);
    }
  }

  lemma KeptWhileHeld(c: Coord, t: TxId, r: RangeId, mem: Memory, ap: seq<Entry>)
    requires r in c.parts && TrackAt(c, t, r, mem, ap) && c.phase.Committed? && Holds(mem, t)
    ensures RecordKept(c.parts[r], t, mem)
  {
  }

  // ---------------------------------------------------------------- at the serving place

  lemma RowsAfterCommit(mem: Memory, mem': Memory, tb: Records.Table, tb': Records.Table, e: Epoch,
      p: Overlays.Participant)
    requires RowsOk(mem, tb) && Records.WellFormed(tb') && e <= mem.lease.hi
    requires mem'.lease == mem.lease && mem.highest <= mem'.highest && e <= mem'.highest
    requires forall k, e' :: HasRow(tb', k, e') <==> HasRow(tb, k, e') || (e' == e && Overlays.Buffered(p, k))
    ensures RowsOk(mem', tb')
  {
    hide HasRow, Records.WellFormed, Overlays.Buffered;
  }

  lemma CurrentAfterCommit(b: Records.Table, h: seq<Entry>, r: RangeId, tb: Records.Table, tb': Records.Table, e: Epoch,
                           p: Overlays.Participant)
    requires Current(b, h, r, tb, Some(p)) && Overlays.UpTo(tb, e)
    requires forall k :: Records.Get(tb', k) == if MaySet(tb, p, e, k) then Wrote(p, k) else Records.Get(tb, k)
    ensures Current(b, h, r, tb', None)
  {
    hide ValueAfter, Records.Get;
    forall k ensures Records.Get(tb', k) == ValueAfter(b, h, r, k) {
      assert Visible(Some(p), k, Records.Get(tb, k)) == ValueAfter(b, h, r, k);
    }
  }

  lemma NoneDue(txs: map<TxId, Coord>, mem: Memory, up: bool, r: RangeId)
    requires forall u :: Holds(mem, u) ==> u in txs && !txs[u].phase.Committed?
    ensures DueAt(txs, mem, up, r) == None
  {
    var h := mem.lock.holder;
    assert h.Some? ==> Holds(mem, h.value);
  }

  lemma ServingCommitServed(s: System, t: TxId, r: RangeId)
    requires r in s.stores && Ready(s, t, ServingPlace(s, r))
    ensures var s' := Applied(s, t, ServingPlace(s, r)); ServingPlace(s', r) in s'.places && Served(s', r)
  {
    var pl := ServingPlace(s, r);
    ReadyFacts(s, t, pl);
    hide Weak, Order, Data, RowsOk, Current, RecordKept, Overlays.Disjoint, Records.WellFormed, Overlays.UpTo, LateOk;
    RangeAt(s, r);
    PairAt(s, t, r);
    EpochLeased(s, t, r);
    var mem, tb, p, e := s.places[pl], s.stores[r].table, s.txs[t].parts[r], s.txs[t].phase.epoch;
    CommitTable(mem, tb, t, e, p);
    NoneDue(s.txs, Commit(mem, t, e), true, r);
    assert Due(s, r) == Some(p);
    hide Written;
    RowsAfterCommit(mem, Commit(mem, t, e), tb, Written(mem, tb, t, e), e, p);
    CurrentAfterCommit(s.base[r], s.history, r, tb, Written(mem, tb, t, e), e, p);
  }

  /** Everybody else at the range neither reads nor votes under the lock just given up. */
  lemma PairElsewhere(c: Coord, u: TxId, r: RangeId, m: nat, mem: Memory, mem': Memory, tb': Records.Table)
    requires r in c.parts && TermOk(c, u, (r, m), mem) && (Holds(mem, u) ==> !Live(c))
    requires c.phase.Committed? ==> !Holds(mem', u)
    ensures PairOk(c, u, r, m, mem', tb')
  {
  }

  /** Late commits are hidden under the rows just written. */
  lemma LateAfterCommit(q: Overlays.Participant, d: Epoch, b: Records.Table, h: seq<Entry>, r: RangeId,
      tb: Records.Table,
                        tb': Records.Table, e: Epoch, p: Overlays.Participant)
    requires LateOk(q, d, b, h, r, tb, Some(p)) && d < e
    requires forall k, e' :: HasRow(tb', k, e') <==> HasRow(tb, k, e') || (e' == e && Overlays.Buffered(p, k))
    ensures LateOk(q, d, b, h, r, tb', None)
  {
    hide ValueAfter;
    forall k | MaySet(tb', q, d, k) ensures Wrote(q, k) == ValueAfter(b, h, r, k) {
      HiddenGrows(tb, tb', k, d);
      assert Overlays.Buffered(p, k) ==> HasRow(tb', k, e);
    }
  }

  lemma HiddenGrows(tb: Records.Table, tb': Records.Table, k: Bytes, d: Epoch)
    requires forall e :: HasRow(tb, k, e) ==> HasRow(tb', k, e)
    ensures Overlays.Hidden(tb, k, d) ==> Overlays.Hidden(tb', k, d)
  {
    if Overlays.Hidden(tb, k, d) {
      var e :| e > d && Records.Lookup(Records.RowsOf(tb, k), e).Some?;
      assert HasRow(tb, k, e);
    }
  }

  lemma ServingCommitLate(s: System, t: TxId, r: RangeId, u: TxId)
    requires r in s.stores && Ready(s, t, ServingPlace(s, r)) && Late(s, u, r)
    ensures LateOk(s.txs[u].parts[r], s.txs[u].phase.epoch, s.base[r], s.history, r,
                   Applied(s, t, ServingPlace(s, r)).stores[r].table, None)
  {
    var pl := ServingPlace(s, r);
    ReadyFacts(s, t, pl);
    hide Weak, Order, Data, PairOk, RecordKept, Overlays.Disjoint, Records.WellFormed, LateOk, MaySet, Wrote;
    PairAt(s, u, r);
    LateIsOld(s, u, r);
    EpochLeased(s, t, r);
    var mem, tb, p, e := s.places[pl], s.stores[r].table, s.txs[t].parts[r], s.txs[t].phase.epoch;
    assert Due(s, r) == Some(p);
    CommitTable(mem, tb, t, e, p);
    hide Written;
    LateAfterCommit(s.txs[u].parts[r], s.txs[u].phase.epoch, s.base[r], s.history, r, tb, Written(mem, tb, t, e), e, p);
  }

  lemma ServingElsewhere(s: System, t: TxId, r: RangeId)
    requires r in s.stores && Ready(s, t, ServingPlace(s, r))
    ensures var pl, s' := ServingPlace(s, r), Applied(s, t, ServingPlace(s, r));
            && r in s'.stores && ServingPlace(s', r) == pl && pl in s'.places && Due(s', r) == None
            && s'.places[pl] == Commit(s.places[pl], t, s.txs[t].phase.epoch)
            && s'.txs == s.txs && s'.history == s.history && s'.base == s.base
            && s'.stores[r].serving == s.stores[r].serving
  {
    var pl := ServingPlace(s, r);
    ReadyFacts(s, t, pl);
    AppliedFacts(s, t, pl);
    hide Inv, Applied, Written, Commit, RecordKept, Overlays.Disjoint, Records.WellFormed;
    NoneDue(s.txs, Commit(s.places[pl], t, s.txs[t].phase.epoch), true, r);
  }

  lemma ServingCommitPaired(s: System, t: TxId, r: RangeId, u: TxId)
    requires r in s.stores && Ready(s, t, ServingPlace(s, r)) && u in s.txs && r in s.txs[u].parts
    ensures var s' := Applied(s, t, ServingPlace(s, r));
            r in s'.stores && r in s'.base && ServingPlace(s', r) in s'.places && Paired(s', u, r)
  {
    var pl := ServingPlace(s, r);
    ServingElsewhere(s, t, r);
    ServingCommitPair(s, t, r, u);
    hide Inv, PairOk, LateOk, Due, Applied;
    var s' := Applied(s, t, pl);
    if Late(s', u, r) {
      ReadyFacts(s, t, pl);
      LateBefore(s, t, pl, u);
      ServingCommitLate(s, t, r, u);
    }
  }

  lemma HeldByOne(s: System, t: TxId, pl: Place, u: TxId)
    requires Ready(s, t, pl) && u in s.txs
    ensures Holds(s.places[pl], u) ==> !Live(s.txs[u])
    ensures s.txs[u].phase.Committed? ==> !Holds(Commit(s.places[pl], t, s.txs[t].phase.epoch), u)
  {
    hide Inv, RecordKept, Overlays.Disjoint, Records.WellFormed, Commit;
    ReadyFacts(s, t, pl);
  }

  lemma ServingCommitPair(s: System, t: TxId, r: RangeId, u: TxId)
    requires r in s.stores && Ready(s, t, ServingPlace(s, r)) && u in s.txs && r in s.txs[u].parts
    ensures var pl := ServingPlace(s, r);
            PairOk(s.txs[u], u, r, pl.1, Commit(s.places[pl], t, s.txs[t].phase.epoch),
                   Applied(s, t, pl).stores[r].table)
  {
    var pl := ServingPlace(s, r);
    hide Inv, PairOk, TermOk, Applied, Commit;
    var mem' := Commit(s.places[pl], t, s.txs[t].phase.epoch);
    HeldByOne(s, t, pl, u);
    CommittedTerm(s, u, pl);
    PairElsewhere(s.txs[u], u, r, pl.1, s.places[pl], mem', Applied(s, t, pl).stores[r].table);
  }

  lemma CommittedTerm(s: System, u: TxId, pl: Place)
    requires Inv(s) && u in s.txs && pl in s.places && pl.0 in s.txs[u].parts
    ensures TermOk(s.txs[u], u, pl, s.places[pl])
  {
    hide Weak, Order, Data, TermOk;
    TermAt(s, u, pl);
  }

  lemma ServingCommitData(s: System, t: TxId, r: RangeId)
    requires r in s.stores && Ready(s, t, ServingPlace(s, r))
    ensures Data(Applied(s, t, ServingPlace(s, r)))
  {
    AppliedLocal(s, t, ServingPlace(s, r));
    hide Data, Local, Shaped, Applied, Served, Paired;
    var s' := Applied(s, t, ServingPlace(s, r));
    ServingCommitServed(s, t, r);
    SameTxs(s, s', r);
    forall u | u in s'.txs && r in s'.txs[u].parts ensures Paired(s', u, r) { ServingCommitPaired(s, t, r, u); }
    LocalData(s, s', r);
  }

  lemma SameTxs(s: System, s': System, r: RangeId)
    requires Local(s, s', r) && r in s.stores
    ensures s'.txs == s.txs && r in s'.stores
  {
  }

  // ---------------------------------------------------------------- at a place that has been succeeded

  /**
   * Each key the late commit may set reads as the history does afterwards, or is about to be hidden; so did it
   * before.
   */
  lemma CurrentAfterLate(b: Records.Table, h: seq<Entry>, r: RangeId, tb: Records.Table, tb': Records.Table, e: Epoch,
                         p: Overlays.Participant, due: Option<Overlays.Participant>)
    requires Current(b, h, r, tb, due) && LateOk(p, e, b, h, r, tb, due)
    requires forall k :: Records.Get(tb', k) == if MaySet(tb, p, e, k) then Wrote(p, k) else Records.Get(tb, k)
    ensures Current(b, h, r, tb', due)
  {
    hide ValueAfter, Records.Get, MaySet, Wrote;
    forall k ensures Visible(due, k, Records.Get(tb', k)) == ValueAfter(b, h, r, k) {
      assert Visible(due, k, Records.Get(tb, k)) == ValueAfter(b, h, r, k);
    }
  }

  lemma RowsAfterLate(hi: Epoch, v: Vote, tb: Records.Table, tb': Records.Table, e: Epoch, p: Overlays.Participant)
    requires AllBounded(hi, tb, v) && e < v.lease.lo && e <= hi
    requires forall k, e' :: HasRow(tb', k, e') <==> HasRow(tb, k, e') || (e' == e && Overlays.Buffered(p, k))
    ensures AllBounded(hi, tb', v)
  {
    hide HasRow, Overlays.Buffered;
  }

  /** The facts about a late commit that matter to the serving place. */
  lemma LateFacts(s: System, t: TxId, pl: Place)
    requires Ready(s, t, pl) && pl != ServingPlace(s, pl.0)
    ensures var r, p, e := pl.0, s.txs[t].parts[pl.0], s.txs[t].phase.epoch;
            var sp, tb := ServingPlace(s, r), s.stores[r].table;
            var tb' := Written(s.places[pl], tb, t, e);
            && sp in s.places && sp in s.floors && e < s.floors[sp] <= s.places[sp].lease.lo <= s.places[sp].lease.hi
            && LateOk(p, e, s.base[r], s.history, r, tb, Due(s, r)) && RowsOk(s.places[sp], tb)
            && Current(s.base[r], s.history, r, tb, Due(s, r)) && Records.WellFormed(tb')
            && (forall k :: Records.Get(tb', k) == if MaySet(tb, p, e, k) then Wrote(p, k) else Records.Get(tb, k))
            && (forall k, e' :: HasRow(tb', k, e') <==> HasRow(tb, k, e') || (e' == e && Overlays.Buffered(p, k)))
  {
    var r := pl.0;
    ReadyFacts(s, t, pl);
    hide Weak, Order, Data, Current, RecordKept, Overlays.Disjoint, Records.WellFormed, LateOk, RowsOk, PairOk, DueAt,
         MaySet, Wrote;
    RangeAt(s, r);
    PairAt(s, t, r);
    assert Late(s, t, r);
    LateIsOld(s, t, r);
    CommitTable(s.places[pl], s.stores[r].table, t, s.txs[t].phase.epoch, s.txs[t].parts[r]);
  }

  /** What the serving place of the range makes of a late commit: only the table differs. */
  lemma LateElsewhere(s: System, t: TxId, pl: Place)
    requires Ready(s, t, pl) && pl != ServingPlace(s, pl.0) && ServingPlace(s, pl.0) in s.places
    ensures var r, s' := pl.0, Applied(s, t, pl);
            && r in s'.stores && ServingPlace(s', r) == ServingPlace(s, r) && ServingPlace(s, r) in s'.places
            && s'.places[ServingPlace(s, r)] == s.places[ServingPlace(s, r)] && Due(s', r) == Due(s, r)
            && s'.txs == s.txs && s'.history == s.history && s'.base == s.base
            && s'.stores[r].serving == s.stores[r].serving
            && s'.stores[r].table == Written(s.places[pl], s.stores[r].table, t, s.txs[t].phase.epoch)
  {
    hide Inv, Written, Commit, DueAt;
  }

  lemma LateServed(s: System, t: TxId, pl: Place)
    requires Ready(s, t, pl) && pl != ServingPlace(s, pl.0)
    ensures var s' := Applied(s, t, pl);
            pl.0 in s'.stores && pl.0 in s'.base && ServingPlace(s', pl.0) in s'.places && Served(s', pl.0)
  {
    var r := pl.0;
    LateFacts(s, t, pl);
    LateElsewhere(s, t, pl);
    hide Inv, Current, Records.WellFormed, LateOk, AllBounded, Due, MaySet, Wrote, HasRow, Written, Applied;
    var s' := Applied(s, t, pl);
    var tb, tb', p, e := s.stores[r].table, s'.stores[r].table, s.txs[t].parts[r], s.txs[t].phase.epoch;
    var sm := s.places[ServingPlace(s, r)];
    RowsAfterLate(sm.lease.hi, VoteOf(sm), tb, tb', e, p);
    CurrentAfterLate(s.base[r], s.history, r, tb, tb', e, p, Due(s, r));
  }

  /** Reads made under the serving lock stay current, since nothing is due then and the range reads as before. */
  lemma FreshAfterLate(p: Overlays.Participant, b: Records.Table, h: seq<Entry>, r: RangeId, tb: Records.Table,
      tb': Records.Table)
    requires Fresh(p, tb) && Current(b, h, r, tb, None) && Current(b, h, r, tb', None)
    ensures Fresh(p, tb')
  {
    hide ValueAfter, Records.Get;
    forall x | x in p.seen ensures x.1 == Records.Get(tb', x.0) {
      assert Visible(None, x.0, Records.Get(tb, x.0)) == Visible(None, x.0, Records.Get(tb', x.0));
    }
  }

  lemma UpToAfterLate(tb: Records.Table, tb': Records.Table, e: Epoch, p: Overlays.Participant, d: Epoch)
    requires Overlays.UpTo(tb, d) && e <= d
    requires forall k, e' :: HasRow(tb', k, e') <==> HasRow(tb, k, e') || (e' == e && Overlays.Buffered(p, k))
    ensures Overlays.UpTo(tb', d)
  {
    hide Overlays.Buffered;
    forall k, e' | e' > d ensures Records.Lookup(Records.RowsOf(tb', k), e') == None {
      assert !HasRow(tb, k, e') && !HasRow(tb', k, e');
    }
  }

  /** What a transaction relies on at the serving place, after a late commit elsewhere. */
  lemma PairAfterLate(c: Coord, u: TxId, r: RangeId, m: nat, mem: Memory, tb: Records.Table, tb': Records.Table,
      e: Epoch,
                      p: Overlays.Participant, b: Records.Table, h: seq<Entry>)
    requires r in c.parts && PairOk(c, u, r, m, mem, tb)
    requires Live(c) && c.parts[r].leader == m ==> Current(b, h, r, tb, None) && Current(b, h, r, tb', None)
    requires c.phase.Preparing? && r in c.votes && r in c.asked && c.asked[r] == m ==>
               e < c.votes[r].lease.lo && e <= mem.lease.hi
    requires c.phase.Committed? && Holds(mem, u) ==> e <= c.phase.epoch
    requires forall k, e' :: HasRow(tb', k, e') <==> HasRow(tb, k, e') || (e' == e && Overlays.Buffered(p, k))
    ensures PairOk(c, u, r, m, mem, tb')
  {
    hide Current, Overlays.UpTo, AllBounded, HasRow, Fresh, Overlays.Buffered;
    if Live(c) && c.parts[r].leader == m { FreshAfterLate(c.parts[r], b, h, r, tb, tb'); }
    if c.phase.Preparing? && r in c.votes && r in c.asked && c.asked[r] == m {
      RowsAfterLate(mem.lease.hi, c.votes[r], tb, tb', e, p);
    }
    if c.phase.Committed? && Holds(mem, u) { UpToAfterLate(tb, tb', e, p, c.phase.epoch); }
  }

  lemma LateStays(q: Overlays.Participant, d: Epoch, b: Records.Table, h: seq<Entry>, r: RangeId, tb: Records.Table,
                  tb': Records.Table, due: Option<Overlays.Participant>)
    requires LateOk(q, d, b, h, r, tb, due) && forall k, e :: HasRow(tb, k, e) ==> HasRow(tb', k, e)
    ensures LateOk(q, d, b, h, r, tb', due)
  {
    hide ValueAfter, HasRow, Wrote;
    forall k | MaySet(tb', q, d, k) ensures Wrote(q, k) == ValueAfter(b, h, r, k) || Settles(due, k) {
      HiddenGrows(tb, tb', k, d);
    }
  }

  /** Whoever has read under the serving number and is not decided holds the serving lock, so that nothing is due. */
  lemma ReaderHolds(s: System, u: TxId, r: RangeId)
    requires Weak(s) && u in s.txs && r in s.txs[u].parts && r in s.stores && Live(s.txs[u])
    requires s.txs[u].parts[r].leader == s.stores[r].serving
    ensures ServingPlace(s, r) in s.places && Due(s, r) == None
  {
    hide Weak;
    ServingNumber(s, r);
    TermAt(s, u, ServingPlace(s, r));
  }

  lemma VoteLeased(s: System, u: TxId, r: RangeId)
    requires Weak(s) && u in s.txs && r in s.txs[u].votes && r in s.txs[u].asked
    ensures (r, s.txs[u].asked[r]) in s.floors && s.floors[(r, s.txs[u].asked[r])] <= s.txs[u].votes[r].lease.lo
  {
    hide Weak, TxOk;
    CoordOk(s, u);
  }

  /** What bounds the transactions at the serving place from below. */
  lemma AboveLate(s: System, u: TxId, r: RangeId, e: Epoch)
    requires Weak(s) && u in s.txs && r in s.txs[u].parts && r in s.stores && ServingPlace(s, r) in s.places
    requires ServingPlace(s, r) in s.floors && e < s.floors[ServingPlace(s, r)]
    ensures r in s.txs[u].votes && r in s.txs[u].asked && s.txs[u].asked[r] == s.stores[r].serving ==>
              e < s.txs[u].votes[r].lease.lo
    ensures s.txs[u].phase.Committed? && Holds(s.places[ServingPlace(s, r)], u) ==> e <= s.txs[u].phase.epoch
    ensures Live(s.txs[u]) && s.txs[u].parts[r].leader == s.stores[r].serving ==> Due(s, r) == None
  {
    hide Weak;
    if Live(s.txs[u]) && s.txs[u].parts[r].leader == s.stores[r].serving { ReaderHolds(s, u, r); }
    if r in s.txs[u].votes && r in s.txs[u].asked { VoteLeased(s, u, r); }
    if s.txs[u].phase.Committed? && Holds(s.places[ServingPlace(s, r)], u) {
      HeldWhereAsked(s, u, ServingPlace(s, r));
      EpochLeased(s, u, r);
    }
  }

  lemma LatePair(s: System, t: TxId, pl: Place, u: TxId)
    requires Ready(s, t, pl) && pl != ServingPlace(s, pl.0) && u in s.txs && pl.0 in s.txs[u].parts
    ensures var r := pl.0;
            && ServingPlace(s, r) in s.places
            && PairOk(s.txs[u], u, r, s.stores[r].serving, s.places[ServingPlace(s, r)],
                      Written(s.places[pl], s.stores[r].table, t, s.txs[t].phase.epoch))
  {
    var r := pl.0;
    LateFacts(s, t, pl);
    hide Weak, Order, Data, Current, Records.WellFormed, RowsOk, PairOk, LateOk, MaySet, Wrote, DueAt, HasRow, Written;
    PairAt(s, u, r);
    var sp, tb, p, e := ServingPlace(s, r), s.stores[r].table, s.txs[t].parts[r], s.txs[t].phase.epoch;
    var tb' := Written(s.places[pl], tb, t, e);
    AboveLate(s, u, r, e);
    CurrentAfterLate(s.base[r], s.history, r, tb, tb', e, p, Due(s, r));
    PairAfterLate(s.txs[u], u, r, sp.1, s.places[sp], tb, tb', e, p, s.base[r], s.history);
  }

  lemma LatePaired(s: System, t: TxId, pl: Place, u: TxId)
    requires Ready(s, t, pl) && pl != ServingPlace(s, pl.0) && u in s.txs && pl.0 in s.txs[u].parts
    ensures var s' := Applied(s, t, pl);
            pl.0 in s'.stores && pl.0 in s'.base && ServingPlace(s', pl.0) in s'.places && Paired(s', u, pl.0)
  {
    var r := pl.0;
    LatePair(s, t, pl, u);
    LateElsewhere(s, t, pl);
    hide Inv, PairOk, LateOk, Due, Written, Applied;
    var s' := Applied(s, t, pl);
    if Late(s', u, r) { LateOkAfter(s, t, pl, u); }
  }

  lemma LateOkAfter(s: System, t: TxId, pl: Place, u: TxId)
    requires Ready(s, t, pl) && pl != ServingPlace(s, pl.0) && Late(Applied(s, t, pl), u, pl.0)
    ensures IsCommitted(s.txs, u, pl.0) && ServingPlace(s, pl.0) in s.places
    ensures LateOk(s.txs[u].parts[pl.0], s.txs[u].phase.epoch, s.base[pl.0], s.history, pl.0,
                   Written(s.places[pl], s.stores[pl.0].table, t, s.txs[t].phase.epoch), Due(s, pl.0))
  {
    var r := pl.0;
    LateFacts(s, t, pl);
    ReadyFacts(s, t, pl);
    LateBefore(s, t, pl, u);
    hide Weak, Order, Data, PairOk, LateOk, RowsOk, Current, MaySet, Wrote, Due, HasRow, Written, Applied, RecordKept,
         Overlays.Disjoint, Records.WellFormed;
    PairAt(s, u, r);
    LateStays(s.txs[u].parts[r], s.txs[u].phase.epoch, s.base[r], s.history, r, s.stores[r].table,
              Written(s.places[pl], s.stores[r].table, t, s.txs[t].phase.epoch), Due(s, r));
  }

  lemma LateCommitData(s: System, t: TxId, pl: Place)
    requires Ready(s, t, pl) && pl != ServingPlace(s, pl.0)
    ensures Data(Applied(s, t, pl))
  {
    AppliedLocal(s, t, pl);
    hide Data, Local, Shaped, Applied, Served, Paired;
    var s' := Applied(s, t, pl);
    LateServed(s, t, pl);
    SameTxs(s, s', pl.0);
    forall u | u in s'.txs && pl.0 in s'.txs[u].parts ensures Paired(s', u, pl.0) { LatePaired(s, t, pl, u); }
    LocalData(s, s', pl.0);
  }

  lemma RangeCommitData(s: System, t: TxId, r: RangeId, m: nat, logged: bool)
    requires Inv(s) && Enabled(s, RangeCommit(t, r, m, logged))
    ensures Data(Apply(s, RangeCommit(t, r, m, logged)))
  {
    hide Weak, Order, Data, Commit, Written;
    var pl := (r, m);
    if !logged {
      MemoryData(s, pl, CommitLogFailure(s.places[pl], t, s.txs[t].phase.epoch));
    } else if Holds(s.places[pl], t) {
      RangeAt(s, r);
      if pl == ServingPlace(s, r) { ServingCommitData(s, t, r); } else { LateCommitData(s, t, pl); }
    }
  }

  // ---------------------------------------------------------------- leaders

  /** If due writes are not needed, the range reads as the history does without them. */
  lemma CurrentWithout(s: System, r: RangeId)
    requires r in s.stores && r in s.base && ServingPlace(s, r) in s.places && Served(s, r) && !Needed(s, r)
    ensures Current(s.base[r], s.history, r, s.stores[r].table, None)
  {
    hide RowsOk, ValueAfter, Records.Get, Due, Late, MaySet, Wrote;
    forall k ensures Records.Get(s.stores[r].table, k) == ValueAfter(s.base[r], s.history, r, k) {
      assert Visible(Due(s, r), k, Records.Get(s.stores[r].table, k)) == ValueAfter(s.base[r], s.history, r, k);
      assert Settles(Due(s, r), k) ==> !Unsettled(s, r, k);
    }
  }

  lemma LateWithout(s: System, r: RangeId, u: TxId)
    requires r in s.stores && r in s.base && ServingPlace(s, r) in s.places && !Needed(s, r) && Late(s, u, r)
    requires Paired(s, u, r)
    ensures LateOk(s.txs[u].parts[r], s.txs[u].phase.epoch, s.base[r], s.history, r, s.stores[r].table, None)
  {
    hide PairOk, ValueAfter, Records.Get, Due, MaySet, Wrote;
    var p, e, tb := s.txs[u].parts[r], s.txs[u].phase.epoch, s.stores[r].table;
    hide Late;
    forall k | MaySet(tb, p, e, k) ensures Wrote(p, k) == ValueAfter(s.base[r], s.history, r, k) {
      assert Settles(Due(s, r), k) ==> !Unsettled(s, r, k);
    }
  }

  /** Due writes, once late, say what the history says. */
  lemma DueAsLate(b: Records.Table, h: seq<Entry>, r: RangeId, tb: Records.Table, p: Overlays.Participant, e: Epoch)
    requires Current(b, h, r, tb, Some(p))
    ensures LateOk(p, e, b, h, r, tb, None)
  {
    hide ValueAfter, Records.Get;
    forall k | MaySet(tb, p, e, k) ensures Wrote(p, k) == ValueAfter(b, h, r, k) {
      assert Visible(Some(p), k, Records.Get(tb, k)) == ValueAfter(b, h, r, k);
    }
  }

  lemma RowsAfterLoad(mem: Memory, tb: Records.Table, epoch: Epoch, n: nat)
    requires RowsOk(mem, tb)
    ensures RowsOk(Load(mem.lease, epoch, n), tb)
  {
    hide Records.WellFormed;
  }

  /** Under a new number nothing that was read or promised earlier is relied upon. */
  lemma PairAfterLoad(c: Coord, u: TxId, r: RangeId, m: nat, mem: Memory, tb: Records.Table)
    requires r in c.parts && mem.lock == Locking.FREE && c.parts[r].leader < m && (r in c.asked ==> c.asked[r] < m)
    ensures PairOk(c, u, r, m, mem, tb)
  {
  }

  lemma EarlierNumbers(s: System, u: TxId, r: RangeId)
    requires Weak(s) && u in s.txs && r in s.txs[u].parts && r in s.stores
    ensures s.txs[u].parts[r].leader <= s.stores[r].serving
    ensures r in s.txs[u].asked ==> s.txs[u].asked[r] <= s.stores[r].serving
  {
    hide Weak, TxOk;
    CoordOk(s, u);
    if r in s.txs[u].asked { PlaceNumber(s, (r, s.txs[u].asked[r])); }
  }

  /** What loading does: a new serving place with nothing due. */
  lemma LoadFacts(s: System, r: RangeId, epoch: Epoch, n: nat)
    requires Weak(s) && r in s.stores && s.stores[r].serving < s.stores[r].leader
    ensures var s', m, mem := LoadStep(s, r, epoch, n), s.stores[r].leader, Load(s.stores[r].lease, epoch, n);
            && r in s'.stores && s'.stores[r].serving == m && s'.stores[r].table == s.stores[r].table
            && s'.txs == s.txs && s'.history == s.history && s'.base == s.base && s'.down == s.down
            && s'.places == s.places[(r, m) := mem] && (r, m) !in s.places && Due(s', r) == None
            && ServingPlace(s, r) in s.places && s.stores[r].lease == s.places[ServingPlace(s, r)].lease
  {
    hide TxOk, SentOk, Known, TermOk, HistoryOk, AppliedOk, Released, PlaceOk, Fenced;
    if (r, s.stores[r].leader) in s.places { PlaceNumber(s, (r, s.stores[r].leader)); }
  }

  lemma LoadServed(s: System, r: RangeId, epoch: Epoch, n: nat)
    requires Inv(s) && r in s.stores && r in s.base && s.stores[r].serving < s.stores[r].leader
    requires ServingPlace(s, r) in s.places && !Needed(s, r)
    ensures var s' := LoadStep(s, r, epoch, n);
            r in s'.stores && r in s'.base && ServingPlace(s', r) in s'.places && Served(s', r)
  {
    hide Weak, Order, Data, RowsOk, Current, Due, Needed, LoadStep, Load;
    RangeAt(s, r);
    LoadFacts(s, r, epoch, n);
    CurrentWithout(s, r);
    RowsAfterLoad(s.places[ServingPlace(s, r)], s.stores[r].table, epoch, n);
  }

  /** After loading, whoever is late was late before or was due. */
  lemma LateByLoad(s: System, r: RangeId, epoch: Epoch, n: nat, u: TxId)
    requires Weak(s) && r in s.stores && s.stores[r].serving < s.stores[r].leader
    requires Late(LoadStep(s, r, epoch, n), u, r)
    ensures IsCommitted(s.txs, u, r) && ServingPlace(s, r) in s.places
    ensures Late(s, u, r) || Due(s, r) == Some(s.txs[u].parts[r])
  {
    hide Weak, LoadStep, Load;
    LoadFacts(s, r, epoch, n);
  }

  lemma LoadPaired(s: System, r: RangeId, epoch: Epoch, n: nat, u: TxId)
    requires Inv(s) && r in s.stores && r in s.base && s.stores[r].serving < s.stores[r].leader
    requires ServingPlace(s, r) in s.places && !Needed(s, r) && u in s.txs && r in s.txs[u].parts
    ensures var s' := LoadStep(s, r, epoch, n);
            u in s'.txs && r in s'.stores && r in s'.base && ServingPlace(s', r) in s'.places && r in s'.txs[u].parts
            && Paired(s', u, r)
  {
    hide Weak, Order, Data, PairOk, LateOk, Current, RowsOk, Needed, LoadStep, Due;
    LoadFacts(s, r, epoch, n);
    EarlierNumbers(s, u, r);
    PairAfterLoad(s.txs[u], u, r, s.stores[r].leader, Load(s.stores[r].lease, epoch, n), s.stores[r].table);
    hide Load;
    if Late(LoadStep(s, r, epoch, n), u, r) {
      LateByLoad(s, r, epoch, n, u);
      RangeAt(s, r);
      PairAt(s, u, r);
      if Late(s, u, r) { LateWithout(s, r, u); }
      else { DueAsLate(s.base[r], s.history, r, s.stores[r].table, s.txs[u].parts[r], s.txs[u].phase.epoch); }
    }
  }

  lemma LoadData(s: System, r: RangeId, epoch: Epoch, n: nat)
    requires Inv(s) && Enabled(s, LoadRange(r, epoch, n)) && !Harms(s, LoadRange(r, epoch, n))
    ensures Data(Apply(s, LoadRange(r, epoch, n)))
  {
    hide Weak, Order, Data, Needed, Local, Served, Paired, LoadStep;
    RangeAt(s, r);
    var s' := LoadStep(s, r, epoch, n);
    LoadLocal(s, r, epoch, n);
    LoadServed(s, r, epoch, n);
    forall u | u in s'.txs && r in s'.txs[u].parts ensures Paired(s', u, r) { LoadPaired(s, r, epoch, n, u); }
    LocalData(s, s', r);
  }

  lemma LoadLocal(s: System, r: RangeId, epoch: Epoch, n: nat)
    requires Data(s) && r in s.stores
    ensures var s' := LoadStep(s, r, epoch, n); Local(s, s', r) && Shaped(s') && s'.txs == s.txs
  {
    hide AllServed, AllPaired, AllFit, Load;
    var s' := LoadStep(s, r, epoch, n);
    assert s'.stores.Keys == s.stores.Keys;
  }

  function Unloading(s: System, pl: Place): System {
    s.(down := s.down + {pl})
  }

  lemma UnloadServed(s: System, pl: Place)
    requires Data(s) && pl.0 in s.stores && pl.0 in s.base && ServingPlace(s, pl.0) in s.places
    requires pl == ServingPlace(s, pl.0) ==> !Needed(s, pl.0)
    ensures Served(Unloading(s, pl), pl.0)
    ensures pl == ServingPlace(s, pl.0) ==> Due(Unloading(s, pl), pl.0) == None
    ensures pl != ServingPlace(s, pl.0) ==> Due(Unloading(s, pl), pl.0) == Due(s, pl.0)
  {
    hide Data, RowsOk, Current, Needed;
    RangeAt(s, pl.0);
    if pl == ServingPlace(s, pl.0) { CurrentWithout(s, pl.0); }
  }

  lemma UnloadPaired(s: System, pl: Place, u: TxId)
    requires Data(s) && pl.0 in s.stores && pl.0 in s.base && ServingPlace(s, pl.0) in s.places
    requires (pl == ServingPlace(s, pl.0) ==> !Needed(s, pl.0)) && u in s.txs && pl.0 in s.txs[u].parts
    ensures Paired(Unloading(s, pl), u, pl.0)
  {
    UnloadServed(s, pl);
    hide Data, PairOk, LateOk, Needed, Due, Served;
    PairAt(s, u, pl.0);
    if pl == ServingPlace(s, pl.0) && Late(s, u, pl.0) { LateWithout(s, pl.0, u); }
  }

  lemma UnloadData(s: System, r: RangeId, m: nat)
    requires Inv(s) && Enabled(s, UnloadRange(r, m)) && !Harms(s, UnloadRange(r, m))
    ensures Data(Apply(s, UnloadRange(r, m)))
  {
    hide Weak, Order, Data, Needed, Served, Paired;
    RangeAt(s, r);
    var s', pl := Unloading(s, (r, m)), (r, m);
    UnloadServed(s, pl);
    forall u | u in s'.txs && r in s'.txs[u].parts ensures Paired(s', u, r) { UnloadPaired(s, pl, u); }
    assert Shaped(s') by { DataShaped(s); }
    LocalData(s, s', r);
  }

  lemma DataShaped(s: System)
    requires Data(s)
    ensures Shaped(s)
  {
    hide AllServed, AllPaired, AllFit;
  }

  // ---------------------------------------------------------------- the decision

  lemma ValueAppend(b: Records.Table, h: seq<Entry>, x: Entry, r: RangeId, k: Bytes)
    ensures ValueAfter(b, h + [x], r, k) ==
            if r in x.parts then Overlays.ReadThrough(x.parts[r], k, ValueAfter(b, h, r, k)) else ValueAfter(b, h, r, k)
  {
    assert (h + [x])[..|h|] == h;
  }

  /** A decision that does no harm: every vote stands, or was given on current reads for writes that change nothing. */
  ghost predicate Harmless(s: System, t: TxId, e: Epoch) {
    && Is(s, t, Preparing) && s.txs[t].votes.Keys == s.txs[t].parts.Keys && Commits(s, t, e)
    && (forall r :: r in s.txs[t].votes ==> s.txs[t].votes[r].highest <= e)
    && !Harms(s, Decide(t, 0, e))
  }

  function WithCommit(s: System, t: TxId, e: Epoch): System
    requires t in s.txs
  {
    s.(txs := s.txs[t := s.txs[t].(phase := Committed(e))], history := s.history + [Entry(t, e, s.txs[t].parts)])
  }

  /**
   * With its vote standing the transaction holds the serving lock, so that nothing is due and its reads are
   * current.
   */
  lemma StandingVote(s: System, t: TxId, r: RangeId)
    requires Inv(s) && Is(s, t, Preparing) && r in s.txs[t].votes && r in s.txs[t].parts && r in s.stores
    requires VoteStands(s, t, r)
    ensures ServingPlace(s, r) in s.places && Holds(s.places[ServingPlace(s, r)], t) && Due(s, r) == None
    ensures Fresh(s.txs[t].parts[r], s.stores[r].table)
  {
    hide Weak, Order, Data, LateOk, AllBounded, Overlays.UpTo, Overlays.Disjoint;
    PairAt(s, t, r);
    var pl := ServingPlace(s, r);
    HoldsWhereVoted(s, t, pl);
    TermAt(s, t, pl);
    DisjointPart(s, t, r);
  }

  /** Where its vote does not stand, the transaction does not hold a serving lock that anything could be due at. */
  lemma OtherVote(s: System, t: TxId, e: Epoch, r: RangeId)
    requires Weak(s) && Is(s, t, Preparing) && r in s.stores && ServingPlace(s, r) in s.places
    requires s.txs[t].votes.Keys == s.txs[t].parts.Keys && (r in s.txs[t].parts ==> !VoteStands(s, t, r))
    ensures Due(WithCommit(s, t, e), r) == Due(s, r)
  {
    hide Weak;
    var pl := ServingPlace(s, r);
    if Holds(s.places[pl], t) {
      HolderListed(s, t, pl);
      HoldsWhereVoted(s, t, pl);
    }
  }

  /** A participant that does not disturb leaves what the history left. */
  lemma Undisturbed(b: Records.Table, h: seq<Entry>, x: Entry, r: RangeId)
    requires r in x.parts ==> !Disturbs(b, h, r, x.parts[r])
    ensures forall k :: ValueAfter(b, h + [x], r, k) == ValueAfter(b, h, r, k)
  {
    hide ValueAfter;
    forall k ensures ValueAfter(b, h + [x], r, k) == ValueAfter(b, h, r, k) { ValueAppend(b, h, x, r, k); }
  }

  lemma SameCurrent(b: Records.Table, h: seq<Entry>, h': seq<Entry>, r: RangeId, tb: Records.Table,
      due: Option<Overlays.Participant>)
    requires Current(b, h, r, tb, due) && forall k :: ValueAfter(b, h', r, k) == ValueAfter(b, h, r, k)
    ensures Current(b, h', r, tb, due)
  {
    hide ValueAfter, Records.Get, Visible;
  }

  lemma CurrentDecided(b: Records.Table, h: seq<Entry>, x: Entry, r: RangeId, tb: Records.Table)
    requires Current(b, h, r, tb, None) && r in x.parts
    ensures Current(b, h + [x], r, tb, Some(x.parts[r]))
  {
    hide ValueAfter, Records.Get;
    forall k ensures Visible(Some(x.parts[r]), k, Records.Get(tb, k)) == ValueAfter(b, h + [x], r, k) {
      ValueAppend(b, h, x, r, k);
      assert Visible(None, k, Records.Get(tb, k)) == ValueAfter(b, h, r, k);
    }
  }

  lemma DueDecided(s: System, t: TxId, e: Epoch, r: RangeId)
    requires t in s.txs && r in s.txs[t].parts && r in s.stores && ServingPlace(s, r) in s.places
    requires ServingPlace(s, r) !in s.down
    requires Holds(s.places[ServingPlace(s, r)], t)
    ensures Due(WithCommit(s, t, e), r) == Some(s.txs[t].parts[r])
  {
  }

  lemma NotDisturbed(s: System, t: TxId, e: Epoch, r: RangeId)
    requires Harmless(s, t, e) && r in s.txs[t].parts && r in s.stores && r in s.base && !VoteStands(s, t, r)
    ensures !Disturbs(s.base[r], s.history, r, s.txs[t].parts[r])
  {
    hide Disturbs, LeasesCover;
  }

  lemma DecideServed(s: System, t: TxId, e: Epoch, r: RangeId)
    requires Inv(s) && Harmless(s, t, e) && r in s.stores
    ensures var s' := WithCommit(s, t, e); r in s'.base && ServingPlace(s', r) in s'.places && Served(s', r)
  {
    RangeAt(s, r);
    var x := Entry(t, e, s.txs[t].parts);
    if r in s.txs[t].parts && VoteStands(s, t, r) {
      StandingVote(s, t, r);
      hide Inv, Harmless, RowsOk, Current, Due, Fresh;
      CurrentDecided(s.base[r], s.history, x, r, s.stores[r].table);
      DueDecided(s, t, e, r);
    } else {
      if r in s.txs[t].parts { NotDisturbed(s, t, e, r); }
      OtherVote(s, t, e, r);
      hide Inv, Harmless, RowsOk, Current, Due, Disturbs;
      Undisturbed(s.base[r], s.history, x, r);
      SameCurrent(s.base[r], s.history, s.history + [x], r, s.stores[r].table, Due(s, r));
    }
  }

  lemma LateSame(p: Overlays.Participant, e: Epoch, b: Records.Table, h: seq<Entry>, h': seq<Entry>, r: RangeId,
      tb: Records.Table,
                 due: Option<Overlays.Participant>)
    requires LateOk(p, e, b, h, r, tb, due) && forall k :: ValueAfter(b, h', r, k) == ValueAfter(b, h, r, k)
    ensures LateOk(p, e, b, h', r, tb, due)
  {
    hide ValueAfter, MaySet, Wrote;
  }

  lemma LateUnderDue(p: Overlays.Participant, e: Epoch, b: Records.Table, h: seq<Entry>, x: Entry, r: RangeId,
      tb: Records.Table)
    requires LateOk(p, e, b, h, r, tb, None) && r in x.parts
    ensures LateOk(p, e, b, h + [x], r, tb, Some(x.parts[r]))
  {
    hide ValueAfter, MaySet, Wrote;
    forall k | MaySet(tb, p, e, k) ensures Wrote(p, k) == ValueAfter(b, h + [x], r, k) || Settles(Some(x.parts[r]), k) {
      ValueAppend(b, h, x, r, k);
    }
  }

  /** The latest writer says what the history says. */
  lemma LateLatest(b: Records.Table, h: seq<Entry>, x: Entry, r: RangeId, tb: Records.Table,
      due: Option<Overlays.Participant>)
    requires r in x.parts
    ensures LateOk(x.parts[r], x.epoch, b, h + [x], r, tb, due)
  {
    hide ValueAfter;
    forall k | MaySet(tb, x.parts[r], x.epoch, k) ensures Wrote(x.parts[r], k) == ValueAfter(b, h + [x], r, k) {
      ValueAppend(b, h, x, r, k);
    }
  }

  /** A vote whose lease covers the epoch puts every row stored at the range at or below it. */
  lemma PairAfterDecide(c: Coord, t: TxId, r: RangeId, m: nat, mem: Memory, tb: Records.Table, e: Epoch)
    requires c.phase.Preparing? && r in c.parts && r in c.votes && PairOk(c, t, r, m, mem, tb)
    requires Covers(c.votes[r].lease, e) && c.votes[r].highest <= e
    requires Holds(mem, t) ==> r in c.asked && c.asked[r] == m
    ensures PairOk(c.(phase := Committed(e)), t, r, m, mem, tb)
  {
    if Holds(mem, t) {
      forall k, e' | e' > e ensures Records.Lookup(Records.RowsOf(tb, k), e') == None {
        assert HasRow(tb, k, e') ==> Bounded(mem.lease.hi, c.votes[r], e');
      }
    }
  }

  lemma DeciderPaired(s: System, t: TxId, e: Epoch, r: RangeId)
    requires Inv(s) && Harmless(s, t, e) && r in s.txs[t].parts
    ensures var s' := WithCommit(s, t, e);
            t in s'.txs && r in s'.txs[t].parts && r in s'.stores && r in s'.base && ServingPlace(s', r) in s'.places
            && Paired(s', t, r)
  {
    hide Weak, Order, Data, PairOk, LateOk, Harms, Due;
    PairAt(s, t, r);
    HoldsWhereVoted(s, t, ServingPlace(s, r));
    assert Covers(s.txs[t].votes[r].lease, e);
    PairAfterDecide(s.txs[t], t, r, s.stores[r].serving, s.places[ServingPlace(s, r)], s.stores[r].table, e);
    LateLatest(s.base[r], s.history, Entry(t, e, s.txs[t].parts), r, s.stores[r].table, Due(WithCommit(s, t, e), r));
  }

  lemma OtherLate(s: System, t: TxId, e: Epoch, u: TxId, r: RangeId)
    requires Inv(s) && Harmless(s, t, e) && u in s.txs && u != t && Late(s, u, r) && ServingPlace(s, r) in s.places
    requires r in s.base
    ensures LateOk(s.txs[u].parts[r], s.txs[u].phase.epoch, s.base[r], WithCommit(s, t, e).history, r,
                   s.stores[r].table,
                   Due(WithCommit(s, t, e), r))
  {
    PairAt(s, u, r);
    var x := Entry(t, e, s.txs[t].parts);
    if r in s.txs[t].parts && VoteStands(s, t, r) {
      StandingVote(s, t, r);
      DueDecided(s, t, e, r);
      hide Inv, Harmless, PairOk, LateOk, Due, Fresh;
      LateUnderDue(s.txs[u].parts[r], s.txs[u].phase.epoch, s.base[r], s.history, x, r, s.stores[r].table);
    } else {
      if r in s.txs[t].parts { NotDisturbed(s, t, e, r); }
      OtherVote(s, t, e, r);
      hide Inv, Harmless, PairOk, LateOk, Due, Disturbs;
      Undisturbed(s.base[r], s.history, x, r);
      LateSame(s.txs[u].parts[r], s.txs[u].phase.epoch, s.base[r], s.history, s.history + [x], r, s.stores[r].table,
               Due(s, r));
    }
  }

  lemma DecidePaired(s: System, t: TxId, e: Epoch, u: TxId, r: RangeId)
    requires Inv(s) && Harmless(s, t, e) && t in s.txs && u in s.txs && r in s.txs[u].parts
    ensures var s' := WithCommit(s, t, e);
            u in s'.txs && r in s'.txs[u].parts && r in s'.stores && r in s'.base && ServingPlace(s', r) in s'.places
            && Paired(s', u, r)
  {
    hide Inv, Harmless, PairOk, LateOk, Due;
    if u == t {
      DeciderPaired(s, t, e, r);
    } else {
      InvPair(s, u, r);
      if Late(s, u, r) { OtherLate(s, t, e, u, r); }
    }
  }

  lemma InvPair(s: System, u: TxId, r: RangeId)
    requires Inv(s) && u in s.txs && r in s.txs[u].parts
    ensures r in s.stores && r in s.base && r in s.applied && ServingPlace(s, r) in s.places && Paired(s, u, r)
  {
    hide Weak, Order, Data, Paired;
    PairAt(s, u, r);
  }

  lemma DecideReads(s: System, t: TxId, e: Epoch, r: RangeId, x: (Bytes, Option<Bytes>))
    requires Inv(s) && Harmless(s, t, e) && r in s.txs[t].parts && r in s.base && x in s.txs[t].parts[r].seen
    ensures x.1 == ValueAfter(s.base[r], s.history, r, x.0)
  {
    PairAt(s, t, r);
    RangeAt(s, r);
    if VoteStands(s, t, r) {
      StandingVote(s, t, r);
      hide Inv, Harmless, PairOk, RowsOk, ValueAfter, Records.Get, Due, LateOk;
      assert Visible(None, x.0, Records.Get(s.stores[r].table, x.0)) == ValueAfter(s.base[r], s.history, r, x.0);
    } else {
      NotDisturbed(s, t, e, r);
    }
  }

  lemma ReadsFitAppend(base: map<RangeId, Records.Table>, h: seq<Entry>, x: Entry)
    requires forall i :: 0 <= i < |h| ==> ReadsFit(base, h, i)
    requires forall r, y :: r in x.parts && r in base && y in x.parts[r].seen ==> y.1 == ValueAfter(base[r], h, r, y.0)
    ensures forall i :: 0 <= i < |h + [x]| ==> ReadsFit(base, h + [x], i)
  {
    hide ValueAfter;
    var h' := h + [x];
    forall i | 0 <= i < |h'| ensures ReadsFit(base, h', i) {
      if i < |h| {
        assert h'[..i] == h[..i];
        assert ReadsFit(base, h, i);
      } else {
        assert h'[..i] == h;
      }
    }
  }

  lemma CommitData(s: System, t: TxId, e: Epoch)
    requires Inv(s) && Harmless(s, t, e)
    ensures Data(WithCommit(s, t, e))
  {
    hide Inv, Served, Paired, AllFit, Shaped;
    var s' := WithCommit(s, t, e);
    hide Harmless;
    DecideShaped(s, t, e);
    DecideFit(s, t, e);
    forall r | r in s'.stores
      ensures r in s'.base && ServingPlace(s', r) in s'.places && Served(s', r)
    {
      DecideServed(s, t, e, r);
    }
    forall u, r | u in s'.txs && r in s'.txs[u].parts
      ensures r in s'.stores && r in s'.base && ServingPlace(s', r) in s'.places && Paired(s', u, r)
    {
      DecidePaired(s, t, e, u, r);
    }
    LocalAll(s');
  }

  lemma DecideShaped(s: System, t: TxId, e: Epoch)
    requires Inv(s) && t in s.txs
    ensures Shaped(WithCommit(s, t, e))
  {
    hide Weak, Order, AllServed, AllPaired, AllFit;
  }

  lemma DecideFit(s: System, t: TxId, e: Epoch)
    requires Inv(s) && Harmless(s, t, e)
    ensures AllFit(WithCommit(s, t, e))
  {
    var x := Entry(t, e, s.txs[t].parts);
    assert AllFit(s);
    hide Inv, Harmless, ReadsFit, ValueAfter;
    forall r, y | r in x.parts && r in s.base && y in x.parts[r].seen
      ensures y.1 == ValueAfter(s.base[r], s.history, r, y.0)
    {
      DecideReads(s, t, e, r, y);
    }
    ReadsFitAppend(s.base, s.history, x);
  }

  lemma DecideData(s: System, t: TxId, readEpoch: Epoch, e: Epoch)
    requires Inv(s) && Enabled(s, Decide(t, readEpoch, e)) && !Harms(s, Decide(t, readEpoch, e))
    ensures Data(Apply(s, Decide(t, readEpoch, e)))
  {
    hide Weak, Order, Data, Disturbs;
    if !LeasesCover(s.txs[t].votes, e) {
      GiveUpData(s, t, s.txs[t].(phase := Aborted));
    } else if Commits(s, t, e) {
      CommitData(s, t, e);
      SameData(WithCommit(s, t, e), Apply(s, Decide(t, readEpoch, e)));
    }
  }

  // ---------------------------------------------------------------- all together

  lemma StepInv(s: System, a: Action)
    requires Inv(s) && Enabled(s, a) && !Harms(s, a)
    ensures Inv(Apply(s, a))
  {
    hide Weak, Order, Data, Harms;
    StepWeak(s, a);
    StepOrder(s, a);
    StepDown(s, a);
    match a
    case Begin(t) => BeginData(s, t);
    case DoPut(t, r, k, v) => BufferData(s, a);
    case DoDel(t, r, k) => BufferData(s, a);
    case AskGet(t, r, m) => AskGetData(s, t, r, m);
    case FinishGet(t, r, m, k) => FinishGetData(s, t, r, m, k);
    case StartCommit(t) => BufferData(s, a);
    case AskPrepare(t, r, m) => AskPrepareData(s, t, r, m);
    case FinishPrepare(t, r, rec) => FinishPrepareData(s, t, r, rec);
    case Decide(t, readEpoch, e) => DecideData(s, t, readEpoch, e);
    case GiveUp(t) => GiveUpData(s, t, s.txs[t].(phase := Aborted));
    case StoreAbort(t) => SameData(s, Apply(s, a));
    case RangeAbort(t, r, m) => RangeAbortData(s, t, r, m);
    case RangeCommit(t, r, m, logged) => RangeCommitData(s, t, r, m, logged);
    case RenewLeaseAt(r, m, epoch, n) => RenewData(s, r, m, epoch, n);
    case TakeOver(r) => RowData(s, r, s.stores[r].(leader := s.stores[r].leader + 1));
    case LoadRange(r, epoch, n) => LoadData(s, r, epoch, n);
    case UnloadRange(r, m) => UnloadData(s, r, m);
  }
}
