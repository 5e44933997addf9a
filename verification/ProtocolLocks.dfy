/** What every run of the commit protocol keeps, whatever leaders come, go or stay on. */
module ProtocolLocks {
  import opened Base
  import opened Leasing
  import opened Ranges
  import opened Protocol
  import Locking
  import Records
  import Overlays
  import Decisions

  // ---------------------------------------------------------------- the invariant

  ghost predicate PlaceOk(st: Store, floor: Epoch, m: nat, mem: Memory) {
    && 0 < m <= st.serving
    && floor <= mem.lease.lo <= mem.lease.hi <= st.lease.hi
    && Locking.Ordered(mem.lock)
  }

  /** The row has the lease of the latest number loaded. */
  ghost predicate Latest(stores: map<RangeId, Store>, places: map<Place, Memory>) {
    forall r :: r in stores ==>
                  && stores[r].serving <= stores[r].leader
                  && (r, stores[r].serving) in places && stores[r].lease == places[(r, stores[r].serving)].lease
  }

  ghost predicate Placed(stores: map<RangeId, Store>, places: map<Place, Memory>, floors: map<Place, Epoch>) {
    forall pl :: pl in places ==> pl.0 in stores && pl in floors && PlaceOk(stores[pl.0], floors[pl], pl.1, places[pl])
  }

  /** The leases given out under one number end before the first lease of any later number begins. */
  ghost predicate Fenced(places: map<Place, Memory>, floors: map<Place, Epoch>) {
    forall pl, q :: pl in places && q in places && q in floors && pl.0 == q.0 && pl.1 < q.1 ==>
      places[pl].lease.hi < floors[q]
  }

  ghost predicate PlacesOk(stores: map<RangeId, Store>, places: map<Place, Memory>, floors: map<Place, Epoch>) {
    Latest(stores, places) && Placed(stores, places, floors) && Fenced(places, floors)
  }

  /** A coordinator and its decision row agree. */
  ghost predicate TxOk(c: Coord, t: TxId, rows: Decisions.Rows) {
    && t in rows
    && (c.phase.Committed? <==> rows[t].Committed?)
    && (c.phase.Committed? ==>
          && rows[t].epoch == c.phase.epoch
          && c.votes.Keys == c.parts.Keys
          && LeasesCover(c.votes, c.phase.epoch)
          && forall r :: r in c.votes ==> c.votes[r].highest <= c.phase.epoch)
    && (c.waitingOn.Some? ==> c.phase.Running?)
    && c.votes.Keys <= c.asked.Keys <= c.parts.Keys
    && (c.phase.Running? ==> c.asked == map[])
    && forall r :: r in c.parts ==> PartOk(c.parts[r])
  }

  ghost predicate PartOk(p: Overlays.Participant) {
    Overlays.Disjoint(p) && (p.leader == Overlays.UNSET_LEADER <==> p.seen == {})
  }

  /** Requests went to places that exist, and a vote's lease is one that was given out there. */
  ghost predicate SentOk(c: Coord, stores: map<RangeId, Store>, places: map<Place, Memory>, floors: map<Place, Epoch>) {
    && c.parts.Keys <= stores.Keys
    && (forall r :: r in c.asked ==> (r, c.asked[r]) in places && (r, c.asked[r]) in floors)
    && (forall r :: r in c.votes ==>
          && r in c.asked
          && floors[(r, c.asked[r])] <= c.votes[r].lease.lo
          && c.votes[r].lease.hi <= places[(r, c.asked[r])].lease.hi)
    && (forall r :: r in c.parts ==> c.parts[r].leader <= stores[r].serving)
  }

  predicate Live(c: Coord) {
    c.phase.Running? || c.phase.Preparing?
  }

  /** Whoever holds or waits for a lock is a transaction that lists the range. */
  ghost predicate Known(txs: map<TxId, Coord>, pl: Place, mem: Memory) {
    forall t :: Holds(mem, t) || t in mem.lock.queue ==> t in txs && pl.0 in txs[t].parts
  }

  /**
   * Why a transaction holds or waits for the lock at a place, and that it keeps it while it relies on
   * it: after a read there until it is decided, and from its vote there until it is decided.
   */
  ghost predicate TermOk(c: Coord, t: TxId, pl: Place, mem: Memory)
    requires pl.0 in c.parts
  {
    var r, m, p := pl.0, pl.1, c.parts[pl.0];
    var askedHere := r in c.asked && c.asked[r] == m;
    && (Holds(mem, t) && c.phase.Running? ==> c.waitingOn == Some(pl) || p.leader == m)
    && (Holds(mem, t) && c.phase.Preparing? ==> p.leader == m || (p.leader == Overlays.UNSET_LEADER && askedHere))
    && (Holds(mem, t) && c.phase.Committed? ==> askedHere)
    && (t in mem.lock.queue ==>
          && !c.phase.Committed?
          && (c.phase.Running? ==> c.waitingOn == Some(pl))
          && (c.phase.Preparing? ==> p.leader == Overlays.UNSET_LEADER && askedHere && r !in c.votes))
    && (Live(c) && p.leader == m ==> Holds(mem, t))
    && (c.phase.Preparing? && r in c.votes && askedHere ==> Holds(mem, t))
  }

  ghost predicate Listed(txs: map<TxId, Coord>, x: Entry) {
    x.id in txs && txs[x.id].phase == Committed(x.epoch) && txs[x.id].parts == x.parts
  }

  /** The history has every committed transaction once, and nothing is applied that is not in it. */
  ghost predicate HistoryOk(txs: map<TxId, Coord>, h: seq<Entry>) {
    && (forall i :: 0 <= i < |h| ==> Listed(txs, h[i]))
    && (forall i, j :: 0 <= i < j < |h| ==> h[i].id != h[j].id)
    && (forall t :: t in txs && txs[t].phase.Committed? ==> Entry(t, txs[t].phase.epoch, txs[t].parts) in h)
  }

  ghost predicate AppliedOk(h: seq<Entry>, r: RangeId, ap: seq<Entry>) {
    forall i :: 0 <= i < |ap| ==> ap[i] in h && r in ap[i].parts
  }

  /** Whoever has been applied at a range holds no lock there any more. */
  ghost predicate Released(mem: Memory, ap: seq<Entry>) {
    forall i :: 0 <= i < |ap| ==> !Holds(mem, ap[i].id)
  }

  ghost predicate Weak(s: System) {
    && s.applied.Keys == s.stores.Keys == s.base.Keys && s.rows.Keys <= s.txs.Keys
    && PlacesOk(s.stores, s.places, s.floors)
    && (forall t :: t in s.txs ==> TxOk(s.txs[t], t, s.rows))
    && (forall t :: t in s.txs ==> SentOk(s.txs[t], s.stores, s.places, s.floors))
    && (forall pl :: pl in s.places ==> Known(s.txs, pl, s.places[pl]))
    && (forall t, pl :: t in s.txs && pl in s.places && pl.0 in s.txs[t].parts ==>
                          TermOk(s.txs[t], t, pl, s.places[pl]))
    && HistoryOk(s.txs, s.history)
    && (forall r :: r in s.applied ==> AppliedOk(s.history, r, s.applied[r]))
    && (forall pl :: pl in s.places ==> pl.0 in s.applied && Released(s.places[pl], s.applied[pl.0]))
  }

  // ---------------------------------------------------------------- frames

  lemma HistoryUntouched(txs: map<TxId, Coord>, h: seq<Entry>, t: TxId, c: Coord)
    requires HistoryOk(txs, h) && (t in txs ==> !txs[t].phase.Committed?) && !c.phase.Committed?
    ensures HistoryOk(txs[t := c], h)
  {
  }

  lemma KnownOtherwise(txs: map<TxId, Coord>, t: TxId, c: Coord, pl: Place, mem: Memory)
    requires Known(txs, pl, mem) && (t in txs ==> txs[t].parts.Keys <= c.parts.Keys)
    ensures Known(txs[t := c], pl, mem)
  {
  }

  lemma PlacesSameLease(stores: map<RangeId, Store>, places: map<Place, Memory>, floors: map<Place, Epoch>, pl: Place,
      mem: Memory)
    requires PlacesOk(stores, places, floors) && pl in places
    requires mem.lease == places[pl].lease && Locking.Ordered(mem.lock)
    ensures PlacesOk(stores, places[pl := mem], floors)
  {
    assert Fenced(places[pl := mem], floors);
    hide Fenced;
    PlacedWith(stores, places, floors, pl, mem);
  }

  /** One place changes, or a new one comes. */
  lemma PlacedWith(stores: map<RangeId, Store>, places: map<Place, Memory>, floors: map<Place, Epoch>, pl: Place,
      mem: Memory)
    requires Placed(stores, places, floors) && pl in floors && pl.0 in stores
    requires pl in places ==> mem.lease == places[pl].lease && Locking.Ordered(mem.lock)
    requires pl !in places ==> PlaceOk(stores[pl.0], floors[pl], pl.1, mem)
    ensures Placed(stores, places[pl := mem], floors)
  {
  }

  lemma SentSameLease(c: Coord, stores: map<RangeId, Store>, places: map<Place, Memory>, floors: map<Place, Epoch>,
                      pl: Place, mem: Memory)
    requires SentOk(c, stores, places, floors) && pl in places && mem.lease == places[pl].lease
    ensures SentOk(c, stores, places[pl := mem], floors)
  {
  }

  /** A step that changes one undecided coordinator only. */
  lemma CoordStep(s: System, t: TxId, c: Coord)
    requires Weak(s) && t in s.txs && !s.txs[t].phase.Committed? && !c.phase.Committed?
    requires TxOk(c, t, s.rows) && SentOk(c, s.stores, s.places, s.floors) && s.txs[t].parts.Keys <= c.parts.Keys
    requires forall q :: q in s.places && q.0 in c.parts ==> TermOk(c, t, q, s.places[q])
    ensures Weak(SetCoord(s, t, c))
  {
    hide PlacesOk, TxOk, SentOk, Known, TermOk, HistoryOk, AppliedOk, Released;
    var s' := SetCoord(s, t, c);
    HistoryUntouched(s.txs, s.history, t, c);
    forall pl | pl in s.places
      ensures Known(s'.txs, pl, s.places[pl])
    {
      KnownOtherwise(s.txs, t, c, pl, s.places[pl]);
    }
  }

  /** A step that changes one place only, and there not the lease. */
  lemma PlaceStep(s: System, pl: Place, mem: Memory)
    requires Weak(s) && pl in s.places
    requires mem.lease == s.places[pl].lease && Locking.Ordered(mem.lock)
    requires Known(s.txs, pl, mem) && pl.0 in s.applied && Released(mem, s.applied[pl.0])
    requires forall u :: u in s.txs && pl.0 in s.txs[u].parts ==> TermOk(s.txs[u], u, pl, mem)
    ensures Weak(SetMemory(s, pl, mem))
  {
    hide PlacesOk, TxOk, SentOk, Known, TermOk, HistoryOk, AppliedOk, Released;
    PlacesSameLease(s.stores, s.places, s.floors, pl, mem);
    forall u | u in s.txs ensures SentOk(s.txs[u], s.stores, s.places[pl := mem], s.floors) {
      SentSameLease(s.txs[u], s.stores, s.places, s.floors, pl, mem);
    }
  }

  /** A step that changes one undecided coordinator and one place. */
  lemma LocalStep(s: System, t: TxId, c: Coord, pl: Place, mem: Memory)
    requires Weak(s) && t in s.txs && !s.txs[t].phase.Committed? && !c.phase.Committed? && pl in s.places
    requires TxOk(c, t, s.rows) && SentOk(c, s.stores, s.places, s.floors) && s.txs[t].parts.Keys <= c.parts.Keys
    requires mem.lease == s.places[pl].lease && Locking.Ordered(mem.lock)
    requires Known(s.txs[t := c], pl, mem) && pl.0 in s.applied && Released(mem, s.applied[pl.0])
    requires forall q :: q in s.places && q != pl && q.0 in c.parts ==> TermOk(c, t, q, s.places[q])
    requires pl.0 in c.parts ==> TermOk(c, t, pl, mem)
    requires forall u :: u in s.txs && u != t && pl.0 in s.txs[u].parts ==> TermOk(s.txs[u], u, pl, mem)
    ensures Weak(SetMemory(SetCoord(s, t, c), pl, mem))
  {
    hide PlacesOk, TxOk, SentOk, Known, TermOk, HistoryOk, AppliedOk, Released;
    HistoryUntouched(s.txs, s.history, t, c);
    PlacesSameLease(s.stores, s.places, s.floors, pl, mem);
    LocalSent(s, t, c, pl, mem);
    LocalKnown(s, t, c, pl, mem);
    LocalTerm(s, t, c, pl, mem);
  }

  lemma LocalSent(s: System, t: TxId, c: Coord, pl: Place, mem: Memory)
    requires Weak(s) && pl in s.places && mem.lease == s.places[pl].lease && SentOk(c, s.stores, s.places, s.floors)
    ensures var txs := s.txs[t := c]; forall u :: u in txs ==> SentOk(txs[u], s.stores, s.places[pl := mem], s.floors)
  {
    hide PlacesOk, TxOk, SentOk, Known, TermOk, HistoryOk, AppliedOk, Released;
    var txs := s.txs[t := c];
    forall u | u in txs ensures SentOk(txs[u], s.stores, s.places[pl := mem], s.floors) {
      SentSameLease(txs[u], s.stores, s.places, s.floors, pl, mem);
    }
  }

  lemma LocalKnown(s: System, t: TxId, c: Coord, pl: Place, mem: Memory)
    requires Weak(s) && t in s.txs && pl in s.places && s.txs[t].parts.Keys <= c.parts.Keys
    requires Known(s.txs[t := c], pl, mem)
    ensures var places := s.places[pl := mem]; forall q :: q in places ==> Known(s.txs[t := c], q, places[q])
  {
    hide PlacesOk, TxOk, SentOk, Known, TermOk, HistoryOk, AppliedOk, Released;
    var places := s.places[pl := mem];
    forall q | q in places ensures Known(s.txs[t := c], q, places[q]) {
      if q != pl { KnownOtherwise(s.txs, t, c, q, s.places[q]); }
    }
  }

  lemma LocalTerm(s: System, t: TxId, c: Coord, pl: Place, mem: Memory)
    requires Weak(s) && t in s.txs && pl in s.places
    requires forall q :: q in s.places && q != pl && q.0 in c.parts ==> TermOk(c, t, q, s.places[q])
    requires pl.0 in c.parts ==> TermOk(c, t, pl, mem)
    requires forall u :: u in s.txs && u != t && pl.0 in s.txs[u].parts ==> TermOk(s.txs[u], u, pl, mem)
    ensures var txs, places := s.txs[t := c], s.places[pl := mem];
            forall u, q :: u in txs && q in places && q.0 in txs[u].parts ==> TermOk(txs[u], u, q, places[q])
  {
    hide PlacesOk, TxOk, SentOk, Known, TermOk, HistoryOk, AppliedOk, Released;
  }

  // ---------------------------------------------------------------- coordinators alone

  /** While running, a place only depends on what was read, not on what is buffered. */
  lemma TermWhileRunning(c: Coord, c': Coord, t: TxId, q: Place, mem: Memory)
    requires q.0 in c.parts && q.0 in c'.parts && TermOk(c, t, q, mem)
    requires c.phase.Running? && c'.phase.Running? && c'.waitingOn == c.waitingOn
    requires c'.parts[q.0].leader == c.parts[q.0].leader
    ensures TermOk(c', t, q, mem)
  {
  }

  /** A range the transaction has not touched yet. */
  lemma TermOfNewRange(txs: map<TxId, Coord>, c: Coord, t: TxId, q: Place, mem: Memory)
    requires t in txs && q.0 !in txs[t].parts && Known(txs, q, mem)
    requires q.0 in c.parts && c.parts[q.0].leader == Overlays.UNSET_LEADER && c.phase.Running? && q.1 > 0
    ensures TermOk(c, t, q, mem)
  {
  }

  lemma PlaceNumber(s: System, q: Place)
    requires Weak(s) && q in s.places
    ensures q.1 > 0 && q.0 in s.stores && q.1 <= s.stores[q.0].serving
  {
    hide TxOk, SentOk, Known, TermOk, HistoryOk, AppliedOk, Released;
  }

  lemma TxAfterBuffer(c: Coord, t: TxId, r: RangeId, p: Overlays.Participant, s: System)
    requires TxOk(c, t, s.rows) && SentOk(c, s.stores, s.places, s.floors) && c.phase.Running? && r in s.stores
    requires p.seen == Overlays.PartOf(c.parts, r).seen && p.leader == Overlays.PartOf(c.parts, r).leader
    requires Overlays.Disjoint(p)
    ensures TxOk(SetPart(c, r, p), t, s.rows) && SentOk(SetPart(c, r, p), s.stores, s.places, s.floors)
    ensures r !in c.parts ==> p.leader == Overlays.UNSET_LEADER
  {
  }

  lemma TxStartCommit(c: Coord, t: TxId, s: System)
    requires TxOk(c, t, s.rows) && SentOk(c, s.stores, s.places, s.floors) && c.phase.Running? && c.waitingOn == None
    ensures TxOk(c.(phase := Preparing), t, s.rows) && SentOk(c.(phase := Preparing), s.stores, s.places, s.floors)
    ensures c.votes == map[]
  {
  }

  lemma TxGiveUp(c: Coord, c': Coord, t: TxId, s: System)
    requires TxOk(c, t, s.rows) && SentOk(c, s.stores, s.places, s.floors) && Live(c)
    requires c' == c.(phase := Aborted, waitingOn := None)
    ensures TxOk(c', t, s.rows) && SentOk(c', s.stores, s.places, s.floors)
  {
  }

  lemma BufferStep(s: System, t: TxId, r: RangeId, p: Overlays.Participant)
    requires Weak(s) && Idle(s, t) && r in s.stores
    requires p.seen == Overlays.PartOf(s.txs[t].parts, r).seen && p.leader == Overlays.PartOf(s.txs[t].parts, r).leader
    requires Overlays.Disjoint(p)
    ensures Weak(SetCoord(s, t, SetPart(s.txs[t], r, p)))
  {
    hide PlacesOk, TxOk, SentOk, Known, TermOk, HistoryOk, AppliedOk, Released, PartOk;
    var c := s.txs[t];
    var c' := SetPart(c, r, p);
    TxAfterBuffer(c, t, r, p, s);
    forall q | q in s.places && q.0 in c'.parts ensures TermOk(c', t, q, s.places[q]) {
      PlaceNumber(s, q);
      if q.0 in c.parts { TermWhileRunning(c, c', t, q, s.places[q]); }
      else { TermOfNewRange(s.txs, c', t, q, s.places[q]); }
    }
    CoordStep(s, t, c');
  }

  lemma TermStartCommit(c: Coord, t: TxId, q: Place, mem: Memory)
    requires q.0 in c.parts && TermOk(c, t, q, mem) && c.phase.Running? && c.waitingOn == None && c.votes == map[]
    ensures TermOk(c.(phase := Preparing), t, q, mem)
  {
  }

  lemma StartCommitStep(s: System, t: TxId)
    requires Weak(s) && Idle(s, t)
    ensures Weak(SetCoord(s, t, s.txs[t].(phase := Preparing)))
  {
    hide PlacesOk, TxOk, SentOk, Known, TermOk, HistoryOk, AppliedOk, Released;
    var c := s.txs[t];
    var c' := c.(phase := Preparing);
    TxStartCommit(c, t, s);
    forall q | q in s.places && q.0 in c'.parts ensures TermOk(c', t, q, s.places[q]) {
      TermStartCommit(c, t, q, s.places[q]);
    }
    CoordStep(s, t, c');
  }

  lemma TermOfAborted(c: Coord, t: TxId, q: Place, mem: Memory)
    requires q.0 in c.parts && c.phase.Aborted?
    ensures TermOk(c, t, q, mem)
  {
  }

  lemma GiveUpStep(s: System, t: TxId, c': Coord)
    requires Weak(s) && t in s.txs && Live(s.txs[t])
    requires c' == s.txs[t].(phase := Aborted, waitingOn := None)
    ensures Weak(SetCoord(s, t, c'))
  {
    hide PlacesOk, TxOk, SentOk, Known, TermOk, HistoryOk, AppliedOk, Released;
    TxGiveUp(s.txs[t], c', t, s);
    forall q | q in s.places && q.0 in c'.parts ensures TermOk(c', t, q, s.places[q]) {
      TermOfAborted(c', t, q, s.places[q]);
    }
    CoordStep(s, t, c');
  }

  lemma TxOtherRow(c: Coord, u: TxId, rows: Decisions.Rows, rows': Decisions.Rows)
    requires TxOk(c, u, rows) && u in rows' && (rows'[u] == rows[u] || (rows'[u].Aborted? && rows[u].Started?))
    ensures TxOk(c, u, rows')
  {
  }

  lemma TxRowKnown(c: Coord, u: TxId, rows: Decisions.Rows)
    requires TxOk(c, u, rows)
    ensures u in rows
  {
  }

  lemma NewTxOk(t: TxId, s: System)
    ensures SentOk(NEW_COORD, s.stores, s.places, s.floors)
    ensures t in s.rows && s.rows[t].Started? ==> TxOk(NEW_COORD, t, s.rows)
  {
  }

  lemma BeginStep(s: System, t: TxId)
    requires Weak(s) && t !in s.txs
    ensures Weak(Apply(s, Begin(t)))
  {
    hide PlacesOk, TxOk, SentOk, Known, TermOk, HistoryOk, AppliedOk, Released;
    var s' := Apply(s, Begin(t));
    assert s'.rows == s.rows[t := Decisions.Started];
    NewTxOk(t, s');
    forall u | u in s'.txs ensures TxOk(s'.txs[u], u, s'.rows) {
      if u != t { TxRowKnown(s.txs[u], u, s.rows); TxOtherRow(s.txs[u], u, s.rows, s'.rows); }
    }
    forall pl | pl in s.places
      ensures Known(s'.txs, pl, s.places[pl])
    {
      KnownOtherwise(s.txs, t, NEW_COORD, pl, s.places[pl]);
    }
    HistoryUntouched(s.txs, s.history, t, NEW_COORD);
  }

  lemma StoreAbortStep(s: System, t: TxId)
    requires t in s.txs && Weak(s)
    ensures Weak(Apply(s, StoreAbort(t)))
  {
    hide PlacesOk, TxOk, SentOk, Known, TermOk, HistoryOk, AppliedOk, Released;
    var s' := Apply(s, StoreAbort(t));
    forall u | u in s'.txs ensures TxOk(s'.txs[u], u, s'.rows) { TxAfterAbort(s.txs[u], u, s.rows, t); }
  }

  lemma TxAfterAbort(c: Coord, u: TxId, rows: Decisions.Rows, t: TxId)
    requires TxOk(c, u, rows)
    ensures TxOk(c, u, Decisions.TryAbort(rows, t).0)
  {
    TxRowKnown(c, u, rows);
    hide TxOk;
    TxOtherRow(c, u, rows, Decisions.TryAbort(rows, t).0);
  }

  // ---------------------------------------------------------------- lock requests

  /** A request changes the standing of nobody but the requester. */
  lemma RequestLocally(mem: Memory, t: TxId, u: TxId)
    requires u != t
    ensures Holds(Request(mem, t), u) <==> Holds(mem, u)
    ensures u in Request(mem, t).lock.queue <==> u in mem.lock.queue
  {
  }

  lemma TermAfterRequestByOther(c: Coord, u: TxId, t: TxId, pl: Place, mem: Memory)
    requires u != t && pl.0 in c.parts && TermOk(c, u, pl, mem)
    ensures TermOk(c, u, pl, Request(mem, t))
  {
    hide Locking.Acquire;
    RequestLocally(mem, t, u);
  }

  lemma RequestOrdered(mem: Memory, t: TxId)
    requires Locking.Ordered(mem.lock) && t !in mem.lock.queue
    ensures Locking.Ordered(Request(mem, t).lock) && Request(mem, t).lease == mem.lease
  {
    Locking.AcquireKeepsOrder(mem.lock, t);
  }

  lemma KnownAfterRequest(txs: map<TxId, Coord>, t: TxId, c: Coord, pl: Place, mem: Memory)
    requires Known(txs, pl, mem) && t in txs && txs[t].parts.Keys <= c.parts.Keys && pl.0 in c.parts
    ensures Known(txs[t := c], pl, Request(mem, t))
  {
  }

  /** An undecided requester has not been applied anywhere. */
  lemma ReleasedAfterRequest(s: System, t: TxId, pl: Place)
    requires Weak(s) && t in s.txs && !s.txs[t].phase.Committed? && pl in s.places && pl.0 in s.applied
    ensures Released(Request(s.places[pl], t), s.applied[pl.0])
  {
    hide PlacesOk, TxOk, SentOk, Known, TermOk, Locking.Acquire;
    var mem, ap := s.places[pl], s.applied[pl.0];
    forall i | 0 <= i < |ap| ensures !Holds(Request(mem, t), ap[i].id) {
      AppliedIsCommitted(s, pl.0, i);
      RequestLocally(mem, t, ap[i].id);
      assert Released(mem, ap);
    }
  }

  /** A transaction that is not waiting is in no queue. */
  lemma NotQueued(s: System, t: TxId, pl: Place)
    requires Weak(s) && t in s.txs && pl in s.places
    requires Idle(s, t) || (Is(s, t, Preparing) && pl.0 !in s.txs[t].asked)
    ensures t !in s.places[pl].lock.queue && Locking.Ordered(s.places[pl].lock)
  {
    hide TxOk, SentOk, HistoryOk, AppliedOk, Released;
    assert Known(s.txs, pl, s.places[pl]);
    assert pl.0 in s.txs[t].parts ==> TermOk(s.txs[t], t, pl, s.places[pl]);
  }

  lemma OthersAfterRequest(s: System, t: TxId, pl: Place)
    requires Weak(s) && pl in s.places
    ensures forall u :: u in s.txs && u != t && pl.0 in s.txs[u].parts ==>
              TermOk(s.txs[u], u, pl, Request(s.places[pl], t))
  {
    hide PlacesOk, TxOk, SentOk, Known, TermOk, HistoryOk, AppliedOk, Released, Request;
    forall u | u in s.txs && u != t && pl.0 in s.txs[u].parts
      ensures TermOk(s.txs[u], u, pl, Request(s.places[pl], t))
    {
      TermAfterRequestByOther(s.txs[u], u, t, pl, s.places[pl]);
    }
  }

  lemma TermAfterAskGet(c: Coord, t: TxId, pl: Place, mem: Memory)
    requires c.phase.Running? && c.waitingOn == None && t !in mem.lock.queue && pl.1 > 0
    requires pl.0 in c.parts ==> TermOk(c, t, pl, mem)
    requires pl.0 !in c.parts ==> !Holds(mem, t)
    ensures TermOk(Asking(c, pl.0, pl.1), t, pl, Request(mem, t))
  {
  }

  lemma TermElsewhereAskGet(c: Coord, t: TxId, pl: Place, q: Place, mem: Memory)
    requires c.phase.Running? && c.waitingOn == None && q != pl && q.1 > 0
    requires q.0 in c.parts ==> TermOk(c, t, q, mem)
    requires q.0 !in c.parts ==> q.0 == pl.0 && !Holds(mem, t) && t !in mem.lock.queue
    ensures TermOk(Asking(c, pl.0, pl.1), t, q, mem)
  {
  }

  lemma TxAfterAskGet(c: Coord, t: TxId, r: RangeId, m: nat, s: System)
    requires TxOk(c, t, s.rows) && SentOk(c, s.stores, s.places, s.floors) && c.phase.Running? && r in s.stores
    ensures TxOk(Asking(c, r, m), t, s.rows) && SentOk(Asking(c, r, m), s.stores, s.places, s.floors)
  {
  }

  lemma NotKnown(txs: map<TxId, Coord>, t: TxId, q: Place, mem: Memory)
    requires Known(txs, q, mem) && t in txs && q.0 !in txs[t].parts
    ensures !Holds(mem, t) && t !in mem.lock.queue
  {
  }

  lemma AskGetStep(s: System, t: TxId, r: RangeId, m: nat)
    requires Weak(s) && Enabled(s, AskGet(t, r, m))
    ensures Weak(Apply(s, AskGet(t, r, m)))
  {
    hide PlacesOk, TxOk, SentOk, Known, TermOk, HistoryOk, AppliedOk, Released, Request;
    var pl := (r, m);
    var c, mem := s.txs[t], s.places[pl];
    var c' := Asking(c, r, m);
    NotQueued(s, t, pl);
    PlaceNumber(s, pl);
    TxAfterAskGet(c, t, r, m, s);
    KnownAfterRequest(s.txs, t, c', pl, mem);
    RequestOrdered(mem, t);
    ReleasedAfterRequest(s, t, pl);
    if r !in c.parts { NotKnown(s.txs, t, pl, mem); }
    TermAfterAskGet(c, t, pl, mem);
    forall q | q in s.places && q != pl && q.0 in c'.parts ensures TermOk(c', t, q, s.places[q]) {
      PlaceNumber(s, q);
      if q.0 !in c.parts { NotKnown(s.txs, t, q, s.places[q]); }
      TermElsewhereAskGet(c, t, pl, q, s.places[q]);
    }
    OthersAfterRequest(s, t, pl);
    LocalStep(s, t, c', pl, Request(mem, t));
  }

  lemma TermAfterAskPrepare(c: Coord, t: TxId, pl: Place, mem: Memory)
    requires c.phase.Preparing? && pl.0 in c.parts && pl.0 !in c.asked && pl.0 !in c.votes && pl.1 > 0
    requires t !in mem.lock.queue && TermOk(c, t, pl, mem) && PartOk(c.parts[pl.0])
    ensures TermOk(c.(asked := c.asked[pl.0 := pl.1]), t, pl, Asked(c, t, pl.0, mem))
  {
  }

  lemma TermElsewhereAskPrepare(c: Coord, t: TxId, pl: Place, q: Place, mem: Memory)
    requires q != pl && q.0 in c.parts && TermOk(c, t, q, mem) && pl.0 !in c.asked && pl.0 !in c.votes
    requires c.phase.Preparing?
    ensures TermOk(c.(asked := c.asked[pl.0 := pl.1]), t, q, mem)
  {
  }

  lemma TxAfterAskPrepare(c: Coord, t: TxId, r: RangeId, m: nat, s: System)
    requires TxOk(c, t, s.rows) && SentOk(c, s.stores, s.places, s.floors)
    requires c.phase.Preparing? && r in c.parts && r !in c.asked && (r, m) in s.places && (r, m) in s.floors
    ensures TxOk(c.(asked := c.asked[r := m]), t, s.rows)
    ensures SentOk(c.(asked := c.asked[r := m]), s.stores, s.places, s.floors)
    ensures r !in c.votes && PartOk(c.parts[r])
  {
  }

  lemma FloorKnown(s: System, pl: Place)
    requires Weak(s) && pl in s.places
    ensures pl in s.floors && pl.0 in s.stores
    ensures s.floors[pl] <= s.places[pl].lease.lo <= s.places[pl].lease.hi && Locking.Ordered(s.places[pl].lock)
  {
    hide TxOk, SentOk, Known, TermOk, HistoryOk, AppliedOk, Released;
  }

  lemma AskPrepareStep(s: System, t: TxId, r: RangeId, m: nat)
    requires Weak(s) && Enabled(s, AskPrepare(t, r, m))
    ensures Weak(Apply(s, AskPrepare(t, r, m)))
  {
    hide PlacesOk, TxOk, SentOk, Known, TermOk, HistoryOk, AppliedOk, Released, Request, PartOk;
    var pl := (r, m);
    var c, mem := s.txs[t], s.places[pl];
    var c' := c.(asked := c.asked[r := m]);
    NotQueued(s, t, pl);
    PlaceNumber(s, pl);
    FloorKnown(s, pl);
    TxAfterAskPrepare(c, t, r, m, s);
    KnownAfterRequest(s.txs, t, c', pl, mem);
    KnownOtherwise(s.txs, t, c', pl, mem);
    RequestOrdered(mem, t);
    ReleasedAfterRequest(s, t, pl);
    TermAfterAskPrepare(c, t, pl, mem);
    forall q | q in s.places && q != pl && q.0 in c'.parts ensures TermOk(c', t, q, s.places[q]) {
      TermElsewhereAskPrepare(c, t, pl, q, s.places[q]);
    }
    OthersAfterRequest(s, t, pl);
    LocalStep(s, t, c', pl, Asked(c, t, r, mem));
  }

  // ---------------------------------------------------------------- replies

  lemma TermAfterReply(c: Coord, t: TxId, pl: Place, k: Bytes, val: Option<Bytes>, q: Place, mem: Memory)
    requires q.0 in c.parts && pl.0 in c.parts && TermOk(c, t, q, mem) && Locking.Ordered(mem.lock)
    requires c.phase.Running? && c.waitingOn == Some(pl) && pl.1 > 0 && q.1 > 0
    requires q == pl ==> Holds(mem, t)
    requires c.parts[pl.0].leader == Overlays.UNSET_LEADER || c.parts[pl.0].leader == pl.1
    ensures TermOk(TakeReply(c, pl.0, k, val, pl.1), t, q, mem)
  {
  }

  lemma TxAfterReply(c: Coord, t: TxId, r: RangeId, m: nat, k: Bytes, val: Option<Bytes>, s: System)
    requires TxOk(c, t, s.rows) && SentOk(c, s.stores, s.places, s.floors) && c.phase.Running? && r in c.parts
    requires m > 0 && r in s.stores && m <= s.stores[r].serving
    requires c.parts[r].leader == Overlays.UNSET_LEADER || c.parts[r].leader == m
    ensures TxOk(TakeReply(c, r, k, val, m), t, s.rows)
    ensures SentOk(TakeReply(c, r, k, val, m), s.stores, s.places, s.floors)
  {
    var p := c.parts[r];
    assert PartOk(p);
    assert (k, val) in p.seen + {(k, val)};
  }

  lemma FinishGetStep(s: System, t: TxId, r: RangeId, m: nat, k: Bytes)
    requires Weak(s) && Enabled(s, FinishGet(t, r, m, k))
    ensures Weak(Apply(s, FinishGet(t, r, m, k)))
  {
    hide PlacesOk, TxOk, SentOk, TermOk, HistoryOk, AppliedOk, Released, Records.Get;
    var pl := (r, m);
    var c, mem := s.txs[t], s.places[pl];
    assert Known(s.txs, pl, mem);
    hide Known;
    PlaceNumber(s, pl);
    var p, val := c.parts[r], Records.Get(s.stores[r].table, k);
    var c' := TakeReply(c, r, k, val, m);
    if p.leader != Overlays.UNSET_LEADER && p.leader != m {
      GiveUpStep(s, t, c');
    } else {
      TxAfterReply(c, t, r, m, k, val, s);
      forall q | q in s.places && q.0 in c'.parts ensures TermOk(c', t, q, s.places[q]) {
        PlaceNumber(s, q);
        FloorKnown(s, q);
        TermAfterReply(c, t, pl, k, val, q, s.places[q]);
      }
      CoordStep(s, t, c');
    }
  }

  lemma TermAfterVote(c: Coord, t: TxId, r: RangeId, v: Vote, q: Place, mem: Memory)
    requires c.phase.Preparing? && r in c.asked && q.0 in c.parts && TermOk(c, t, q, mem) && Locking.Ordered(mem.lock)
    requires q == (r, c.asked[r]) ==> Holds(mem, t)
    ensures TermOk(c.(votes := c.votes[r := v]), t, q, mem)
  {
  }

  lemma TxAfterVote(c: Coord, t: TxId, r: RangeId, s: System)
    requires TxOk(c, t, s.rows) && SentOk(c, s.stores, s.places, s.floors) && c.phase.Preparing? && r in c.asked
    requires var pl := (r, c.asked[r]); pl in s.places && pl in s.floors && s.floors[pl] <= s.places[pl].lease.lo
    ensures var c' := c.(votes := c.votes[r := VoteOf(s.places[(r, c.asked[r])])]);
            TxOk(c', t, s.rows) && SentOk(c', s.stores, s.places, s.floors)
  {
  }

  /** Remembering a record changes nothing about the lock. */
  lemma SameLock(txs: map<TxId, Coord>, pl: Place, mem: Memory, mem': Memory, ap: seq<Entry>)
    requires mem'.lock == mem.lock && mem'.lease == mem.lease
    ensures Known(txs, pl, mem) ==> Known(txs, pl, mem')
    ensures Released(mem, ap) ==> Released(mem', ap)
    ensures forall u :: u in txs && pl.0 in txs[u].parts && TermOk(txs[u], u, pl, mem) ==> TermOk(txs[u], u, pl, mem')
  {
  }

  lemma SameLockStep(s: System, pl: Place, mem: Memory)
    requires Weak(s) && pl in s.places && mem.lock == s.places[pl].lock && mem.lease == s.places[pl].lease
    ensures Weak(SetMemory(s, pl, mem))
  {
    hide PlacesOk, TxOk, SentOk, Known, TermOk, HistoryOk, AppliedOk, Released;
    FloorKnown(s, pl);
    SameLock(s.txs, pl, s.places[pl], mem, s.applied[pl.0]);
    PlaceStep(s, pl, mem);
  }

  lemma FinishPrepareStep(s: System, t: TxId, r: RangeId, rec: Overlays.Record)
    requires Weak(s) && Enabled(s, FinishPrepare(t, r, rec))
    ensures Weak(Apply(s, FinishPrepare(t, r, rec)))
  {
    hide PlacesOk, TxOk, SentOk, Known, TermOk, HistoryOk, AppliedOk, Released;
    var c := s.txs[t];
    var pl := (r, c.asked[r]);
    var v := VoteOf(s.places[pl]);
    var c' := c.(votes := c.votes[r := v]);
    FloorKnown(s, pl);
    TxAfterVote(c, t, r, s);
    forall q | q in s.places && q.0 in c'.parts ensures TermOk(c', t, q, s.places[q]) {
      FloorKnown(s, q);
      TermAfterVote(c, t, r, v, q, s.places[q]);
    }
    CoordStep(s, t, c');
    var s1 := SetCoord(s, t, c');
    SameLockStep(s1, pl, Prepare(s1.places[pl], t, rec));
  }

  // ---------------------------------------------------------------- releases

  lemma TermAfterRelease(c: Coord, u: TxId, t: TxId, pl: Place, mem: Memory, mem': Memory)
    requires pl.0 in c.parts && TermOk(c, u, pl, mem) && u != t && Holds(mem, t)
    requires mem'.lock == Locking.Release(mem.lock)
    ensures TermOk(c, u, pl, mem')
  {
    assert Holds(mem', u) ==> u in mem.lock.queue;
    assert u in mem'.lock.queue ==> u in mem.lock.queue;
  }

  lemma TermOfDecided(c: Coord, t: TxId, pl: Place, mem: Memory, mem': Memory)
    requires pl.0 in c.parts && TermOk(c, t, pl, mem) && !Live(c) && Holds(mem, t) && Locking.Ordered(mem.lock)
    requires mem'.lock == Locking.Release(mem.lock)
    ensures TermOk(c, t, pl, mem') && !Holds(mem', t) && t !in mem'.lock.queue
  {
    assert t !in mem.lock.queue;
    assert Holds(mem', t) || t in mem'.lock.queue ==> t in mem.lock.queue;
  }

  lemma KnownAfterRelease(txs: map<TxId, Coord>, pl: Place, mem: Memory, mem': Memory)
    requires Known(txs, pl, mem) && mem.lock.holder.Some? && mem'.lock == Locking.Release(mem.lock)
    ensures Known(txs, pl, mem')
  {
    assert forall u :: Holds(mem', u) || u in mem'.lock.queue ==> u in mem.lock.queue;
  }

  /** Nobody in a queue is decided, so the next holder has not been applied. */
  lemma ReleasedAfterRelease(s: System, pl: Place, mem': Memory)
    requires Weak(s) && pl in s.places && s.places[pl].lock.holder.Some?
    requires mem'.lock == Locking.Release(s.places[pl].lock)
    ensures pl.0 in s.applied && Released(mem', s.applied[pl.0])
    ensures forall u :: Holds(mem', u) ==> u in s.txs && !s.txs[u].phase.Committed?
  {
    hide PlacesOk, TxOk, SentOk;
    var mem, ap := s.places[pl], s.applied[pl.0];
    forall u | Holds(mem', u) ensures u in s.txs && !s.txs[u].phase.Committed? {
      assert u in mem.lock.queue;
      assert Known(s.txs, pl, mem);
      assert TermOk(s.txs[u], u, pl, mem);
    }
    forall i | 0 <= i < |ap| ensures !Holds(mem', ap[i].id) {
      AppliedIsCommitted(s, pl.0, i);
    }
  }

  lemma AppliedIsCommitted(s: System, r: RangeId, i: nat)
    requires Weak(s) && r in s.applied && i < |s.applied[r]|
    ensures Listed(s.txs, s.applied[r][i]) && s.applied[r][i] in s.history && r in s.applied[r][i].parts
  {
    hide PlacesOk, TxOk, SentOk, Known, TermOk, Released;
    assert AppliedOk(s.history, r, s.applied[r]);
    var j :| 0 <= j < |s.history| && s.history[j] == s.applied[r][i];
    assert Listed(s.txs, s.history[j]);
  }

  lemma ReleaseStep(s: System, t: TxId, pl: Place, mem': Memory)
    requires Weak(s) && t in s.txs && !Live(s.txs[t]) && pl in s.places && pl.0 in s.txs[t].parts
    requires Holds(s.places[pl], t)
    requires mem'.lock == Locking.Release(s.places[pl].lock) && mem'.lease == s.places[pl].lease
    ensures Weak(SetMemory(s, pl, mem'))
    ensures !Holds(mem', t) && t !in mem'.lock.queue
  {
    hide PlacesOk, TxOk, SentOk, Known, TermOk, HistoryOk, AppliedOk, Released, Locking.Release;
    var mem := s.places[pl];
    FloorKnown(s, pl);
    Locking.ReleaseKeepsOrder(mem.lock);
    KnownAfterRelease(s.txs, pl, mem, mem');
    ReleasedAfterRelease(s, pl, mem');
    TermOfDecided(s.txs[t], t, pl, mem, mem');
    forall u | u in s.txs && pl.0 in s.txs[u].parts ensures TermOk(s.txs[u], u, pl, mem') {
      if u != t { TermAfterRelease(s.txs[u], u, t, pl, mem, mem'); }
    }
    PlaceStep(s, pl, mem');
  }

  lemma RangeAbortStep(s: System, t: TxId, r: RangeId, m: nat)
    requires Weak(s) && Enabled(s, RangeAbort(t, r, m))
    ensures Weak(Apply(s, RangeAbort(t, r, m)))
  {
    hide PlacesOk, TxOk, SentOk, Known, TermOk, HistoryOk, AppliedOk, Released, Locking.Release;
    var pl := (r, m);
    if Holds(s.places[pl], t) {
      ReleaseStep(s, t, pl, Abort(s.places[pl], t));
    } else {
      assert SetMemory(s, pl, s.places[pl]) == s;
    }
  }

  /** Recording that a committed transaction has been applied where it has just let go of the lock. */
  lemma RecordApplied(s: System, t: TxId, r: RangeId, table: Records.Table)
    requires Weak(s) && t in s.txs && s.txs[t].phase.Committed? && r in s.txs[t].parts && r in s.stores
    requires r in s.applied
    requires forall pl :: pl in s.places && pl.0 == r ==> !Holds(s.places[pl], t)
    ensures Weak(s.(stores := s.stores[r := s.stores[r].(table := table)],
                    applied := s.applied[r := s.applied[r] + [Entry(t, s.txs[t].phase.epoch, s.txs[t].parts)]]))
  {
    hide PlacesOk, TxOk, SentOk, Known, TermOk;
    var x := Entry(t, s.txs[t].phase.epoch, s.txs[t].parts);
    var s' := s.(stores := s.stores[r := s.stores[r].(table := table)], applied := s.applied[r := s.applied[r] + [x]]);
    assert x in s.history;
    hide HistoryOk;
    SameRows(s, r, s'.stores[r]);
    forall q | q in s'.applied
      ensures AppliedOk(s.history, q, s'.applied[q])
    {
      assert AppliedOk(s.history, q, s.applied[q]);
    }
    forall pl | pl in s.places
      ensures Released(s.places[pl], s'.applied[pl.0])
    {
      assert Released(s.places[pl], s.applied[pl.0]);
    }
  }

  /** Neither the table nor a number that has been taken but not loaded matters to what is leased or asked. */
  lemma SameRows(s: System, r: RangeId, st: Store)
    requires Weak(s) && r in s.stores && st.lease == s.stores[r].lease && st.serving == s.stores[r].serving
    requires s.stores[r].leader <= st.leader
    ensures PlacesOk(s.stores[r := st], s.places, s.floors)
    ensures forall u :: u in s.txs ==> SentOk(s.txs[u], s.stores[r := st], s.places, s.floors)
  {
    hide PlacesOk, TxOk, SentOk, Known, TermOk, HistoryOk, AppliedOk, Released;
    PlacesSameRow(s.stores, s.places, s.floors, r, st);
    forall u | u in s.txs ensures SentOk(s.txs[u], s.stores[r := st], s.places, s.floors) {
      SentSameRow(s.txs[u], s.stores, s.places, s.floors, r, st);
    }
  }

  lemma PlacesSameRow(stores: map<RangeId, Store>, places: map<Place, Memory>, floors: map<Place, Epoch>, r: RangeId,
      st: Store)
    requires PlacesOk(stores, places, floors) && r in stores
    requires st.lease == stores[r].lease && st.serving == stores[r].serving && stores[r].leader <= st.leader
    ensures PlacesOk(stores[r := st], places, floors)
  {
  }

  lemma SentSameRow(c: Coord, stores: map<RangeId, Store>, places: map<Place, Memory>, floors: map<Place, Epoch>,
      r: RangeId, st: Store)
    requires SentOk(c, stores, places, floors) && r in stores && st.serving == stores[r].serving
    ensures SentOk(c, stores[r := st], places, floors)
  {
  }

  lemma OnlyOnePlace(s: System, t: TxId, pl: Place, q: Place)
    requires Weak(s) && t in s.txs && s.txs[t].phase.Committed? && pl.0 in s.txs[t].parts && pl in s.places
    requires q in s.places
    requires Holds(s.places[pl], t) && Holds(s.places[q], t) && pl.0 == q.0
    ensures pl == q
  {
    hide PlacesOk, TxOk, SentOk, Known, HistoryOk, AppliedOk, Released;
    assert TermOk(s.txs[t], t, pl, s.places[pl]);
    assert TermOk(s.txs[t], t, q, s.places[q]);
  }

  lemma RangeCommitStepKeeps(s: System, t: TxId, r: RangeId, m: nat, logged: bool)
    requires Weak(s) && Enabled(s, RangeCommit(t, r, m, logged))
    ensures Weak(Apply(s, RangeCommit(t, r, m, logged)))
  {
    hide PlacesOk, TxOk, SentOk, Known, TermOk, HistoryOk, AppliedOk, Released, Locking.Release;
    var pl := (r, m);
    var mem, e := s.places[pl], s.txs[t].phase.epoch;
    if !logged {
      SameLockStep(s, pl, CommitLogFailure(mem, t, e));
    } else if Holds(mem, t) {
      var mem' := Commit(mem, t, e);
      ReleaseStep(s, t, pl, mem');
      var s1 := SetMemory(s, pl, mem');
      forall q | q in s1.places && q.0 == r ensures !Holds(s1.places[q], t) {
        if q != pl && Holds(s.places[q], t) { OnlyOnePlace(s, t, pl, q); }
      }
      RecordApplied(s1, t, r, Written(mem, s.stores[r].table, t, e));
    }
  }

  // ---------------------------------------------------------------- the decision

  lemma TermAfterDecide(c: Coord, t: TxId, e: Epoch, q: Place, mem: Memory)
    requires c.phase.Preparing? && c.votes.Keys == c.parts.Keys && q.0 in c.parts && TermOk(c, t, q, mem)
    requires Holds(mem, t) ==> q.0 in c.asked && c.asked[q.0] == q.1
    ensures TermOk(c.(phase := Committed(e)), t, q, mem)
  {
  }

  /** A prepared transaction with all its votes holds locks of its ranges only where it voted. */
  lemma HoldsWhereVoted(s: System, t: TxId, q: Place)
    requires Weak(s) && Is(s, t, Preparing) && q.0 in s.txs[t].votes && q in s.places && q.0 in s.txs[t].parts
    ensures q.0 in s.txs[t].asked
    ensures Holds(s.places[q], t) <==> s.txs[t].asked[q.0] == q.1
  {
    hide PlacesOk, Known, HistoryOk, AppliedOk, Released;
    var c := s.txs[t];
    assert TxOk(c, t, s.rows) && SentOk(c, s.stores, s.places, s.floors);
    var pl := (q.0, c.asked[q.0]);
    assert TermOk(c, t, q, s.places[q]);
    assert TermOk(c, t, pl, s.places[pl]);
    PlaceNumber(s, q);
  }

  lemma TxAfterDecide(c: Coord, t: TxId, e: Epoch, rows: Decisions.Rows)
    requires TxOk(c, t, rows) && c.phase.Preparing? && c.votes.Keys == c.parts.Keys
    requires LeasesCover(c.votes, e) && forall r :: r in c.votes ==> c.votes[r].highest <= e
    ensures TxOk(c.(phase := Committed(e)), t, rows[t := Decisions.Committed(e)])
  {
  }

  lemma HistoryAfterDecide(txs: map<TxId, Coord>, h: seq<Entry>, t: TxId, e: Epoch)
    requires HistoryOk(txs, h) && t in txs && txs[t].phase.Preparing?
    ensures HistoryOk(txs[t := txs[t].(phase := Committed(e))], h + [Entry(t, e, txs[t].parts)])
  {
    var x := Entry(t, e, txs[t].parts);
    var h' := h + [x];
    assert h'[|h|] == x;
    assert forall i :: 0 <= i < |h| ==> h'[i] == h[i] && Listed(txs, h[i]);
  }

  lemma CommitDecision(s: System, t: TxId, e: Epoch)
    requires Weak(s) && Is(s, t, Preparing) && s.txs[t].votes.Keys == s.txs[t].parts.Keys && Commits(s, t, e)
    requires forall r :: r in s.txs[t].votes ==> s.txs[t].votes[r].highest <= e
    ensures Weak(DecideStep(s, t, e))
  {
    hide PlacesOk, TxOk, SentOk, Known, TermOk, HistoryOk, Released;
    var c := s.txs[t];
    var c' := c.(phase := Committed(e));
    var s' := DecideStep(s, t, e);
    assert s'.rows == s.rows[t := Decisions.Committed(e)];
    TxAfterDecide(c, t, e, s.rows);
    forall u | u in s'.txs ensures TxOk(s'.txs[u], u, s'.rows) {
      if u != t { TxRowKnown(s.txs[u], u, s.rows); TxOtherRow(s.txs[u], u, s.rows, s'.rows); }
    }
    HistoryAfterDecide(s.txs, s.history, t, e);
    SentAfterDecide(c, e, s);
    forall q | q in s.places ensures Known(s'.txs, q, s.places[q]) { KnownOtherwise(s.txs, t, c', q, s.places[q]); }
    forall q | q in s.places && q.0 in c'.parts ensures TermOk(c', t, q, s.places[q]) {
      if Holds(s.places[q], t) { HoldsWhereVoted(s, t, q); }
      TermAfterDecide(c, t, e, q, s.places[q]);
    }
    forall q | q in s.applied
      ensures AppliedOk(s'.history, q, s.applied[q])
    {
      assert AppliedOk(s.history, q, s.applied[q]);
    }
  }

  lemma SentAfterDecide(c: Coord, e: Epoch, s: System)
    requires SentOk(c, s.stores, s.places, s.floors)
    ensures SentOk(c.(phase := Committed(e)), s.stores, s.places, s.floors)
  {
  }

  lemma DecideKeeps(s: System, t: TxId, readEpoch: Epoch, e: Epoch)
    requires Weak(s) && Enabled(s, Decide(t, readEpoch, e))
    ensures Weak(Apply(s, Decide(t, readEpoch, e)))
  {
    hide PlacesOk, SentOk, Known, TermOk, HistoryOk, AppliedOk, Released;
    var c := s.txs[t];
    assert TxOk(c, t, s.rows);
    if !LeasesCover(c.votes, e) {
      GiveUpStep(s, t, c.(phase := Aborted));
    } else if Commits(s, t, e) {
      CommitDecision(s, t, e);
    }
  }

  // ---------------------------------------------------------------- leaders

  lemma RenewPlaces(stores: map<RangeId, Store>, places: map<Place, Memory>, floors: map<Place, Epoch>, pl: Place,
      mem: Memory)
    requires PlacesOk(stores, places, floors) && pl in places && stores[pl.0].leader == pl.1
    requires mem.lock == places[pl].lock
    requires places[pl].lease.lo <= mem.lease.lo <= mem.lease.hi && places[pl].lease.hi <= mem.lease.hi
    requires stores[pl.0].lease.hi <= mem.lease.hi
    ensures PlacesOk(stores[pl.0 := stores[pl.0].(lease := mem.lease)], places[pl := mem], floors)
  {
    var stores', places' := stores[pl.0 := stores[pl.0].(lease := mem.lease)], places[pl := mem];
    assert PlaceOk(stores[pl.0], floors[pl], pl.1, places[pl]) && stores[pl.0].serving == pl.1;
    hide Fenced;
    RenewPlaced(stores, places, floors, pl, mem);
    RenewFenced(stores, places, floors, pl, mem);
  }

  lemma RenewPlaced(stores: map<RangeId, Store>, places: map<Place, Memory>, floors: map<Place, Epoch>, pl: Place,
      mem: Memory)
    requires Placed(stores, places, floors) && pl in places && mem.lock == places[pl].lock
    requires places[pl].lease.lo <= mem.lease.lo <= mem.lease.hi && stores[pl.0].lease.hi <= mem.lease.hi
    ensures Placed(stores[pl.0 := stores[pl.0].(lease := mem.lease)], places[pl := mem], floors)
  {
    hide Locking.Ordered;
  }

  lemma RenewFenced(stores: map<RangeId, Store>, places: map<Place, Memory>, floors: map<Place, Epoch>, pl: Place,
      mem: Memory)
    requires Placed(stores, places, floors) && Fenced(places, floors) && pl in places && stores[pl.0].serving == pl.1
    ensures Fenced(places[pl := mem], floors)
  {
    hide PlaceOk;
    forall q: Place | q in places && q.0 == pl.0 ensures q.1 <= pl.1 {
      PlaceBelow(stores[q.0], floors[q], q.1, places[q]);
    }
    hide Placed;
  }

  lemma PlaceBelow(st: Store, floor: Epoch, m: nat, mem: Memory)
    requires PlaceOk(st, floor, m, mem)
    ensures m <= st.serving
  {
  }

  lemma RenewSent(c: Coord, stores: map<RangeId, Store>, places: map<Place, Memory>, floors: map<Place, Epoch>,
      pl: Place, mem: Memory)
    requires SentOk(c, stores, places, floors) && pl in places && pl.0 in stores && places[pl].lease.hi <= mem.lease.hi
    ensures SentOk(c, stores[pl.0 := stores[pl.0].(lease := mem.lease)], places[pl := mem], floors)
  {
  }

  /** The row holds the lease of the latest number loaded, which the number in the row extends if it is that one. */
  lemma RowLease(s: System, r: RangeId, m: nat)
    requires Weak(s) && Up(s, r, m) && s.stores[r].leader == m
    ensures s.stores[r].serving == m && s.stores[r].lease == s.places[(r, m)].lease
  {
    hide TxOk, SentOk, Known, TermOk, HistoryOk, AppliedOk, Released;
    PlaceNumber(s, (r, m));
  }

  lemma RenewLeaseStep(s: System, r: RangeId, m: nat, epoch: Epoch, n: nat)
    requires Weak(s) && Enabled(s, RenewLeaseAt(r, m, epoch, n))
    ensures Weak(Apply(s, RenewLeaseAt(r, m, epoch, n)))
  {
    hide PlacesOk, TxOk, SentOk, Known, TermOk, HistoryOk, AppliedOk, Released;
    if s.stores[r].leader == m {
      var pl := (r, m);
      RowLease(s, r, m);
      FloorKnown(s, pl);
      var mem, mem' := s.places[pl], Renew(s.places[pl], epoch, n);
      RenewalBounds(mem.lease, epoch, n);
      RenewPlaces(s.stores, s.places, s.floors, pl, mem');
      forall u | u in s.txs
        ensures SentOk(s.txs[u], s.stores[r := s.stores[r].(lease := mem'.lease)], s.places[pl := mem'], s.floors)
      {
        RenewSent(s.txs[u], s.stores, s.places, s.floors, pl, mem');
      }
      SameLocked(s.txs, pl, mem, mem', s.applied[r]);
    }
  }

  lemma SameLocked(txs: map<TxId, Coord>, pl: Place, mem: Memory, mem': Memory, ap: seq<Entry>)
    requires mem'.lock == mem.lock
    ensures Known(txs, pl, mem) ==> Known(txs, pl, mem')
    ensures Released(mem, ap) ==> Released(mem', ap)
    ensures forall u :: u in txs && pl.0 in txs[u].parts && TermOk(txs[u], u, pl, mem) ==> TermOk(txs[u], u, pl, mem')
  {
  }

  lemma TakeOverStep(s: System, r: RangeId)
    requires Weak(s) && r in s.stores
    ensures Weak(Apply(s, TakeOver(r)))
  {
    hide PlacesOk, TxOk, SentOk, Known, TermOk, HistoryOk, AppliedOk, Released;
    SameRows(s, r, s.stores[r].(leader := s.stores[r].leader + 1));
  }

  lemma LoadPlaces(stores: map<RangeId, Store>, places: map<Place, Memory>, floors: map<Place, Epoch>, r: RangeId,
      mem: Memory)
    requires PlacesOk(stores, places, floors) && r in stores && stores[r].serving < stores[r].leader
    requires stores[r].lease.hi < mem.lease.lo <= mem.lease.hi && mem.lock == Locking.FREE
    ensures var pl := (r, stores[r].leader);
            && pl !in places
            && PlacesOk(stores[r := stores[r].(lease := mem.lease, serving := stores[r].leader)], places[pl := mem],
                        floors[pl := mem.lease.lo])
  {
    var pl := (r, stores[r].leader);
    assert pl !in places;
    hide Fenced;
    LoadPlaced(stores, places, floors, r, mem);
    LoadFenced(stores, places, floors, r, mem);
    hide Placed;
  }

  lemma LoadPlaced(stores: map<RangeId, Store>, places: map<Place, Memory>, floors: map<Place, Epoch>, r: RangeId,
      mem: Memory)
    requires Placed(stores, places, floors) && r in stores && stores[r].serving < stores[r].leader
    requires stores[r].lease.hi < mem.lease.lo <= mem.lease.hi && mem.lock == Locking.FREE
    ensures var pl := (r, stores[r].leader);
            Placed(stores[r := stores[r].(lease := mem.lease, serving := stores[r].leader)], places[pl := mem],
                   floors[pl := mem.lease.lo])
  {
    assert Locking.Ordered(mem.lock);
    hide Locking.Ordered;
  }

  lemma LoadFenced(stores: map<RangeId, Store>, places: map<Place, Memory>, floors: map<Place, Epoch>, r: RangeId,
      mem: Memory)
    requires Placed(stores, places, floors) && Fenced(places, floors) && r in stores
    requires stores[r].serving < stores[r].leader
    requires stores[r].lease.hi < mem.lease.lo
    ensures var pl := (r, stores[r].leader); Fenced(places[pl := mem], floors[pl := mem.lease.lo])
  {
    forall q: Place | q in places && q.0 == r ensures q.1 < stores[r].leader && places[q].lease.hi < mem.lease.lo {
      assert PlaceOk(stores[q.0], floors[q], q.1, places[q]);
    }
    hide Placed, PlaceOk;
  }

  lemma LoadSent(c: Coord, stores: map<RangeId, Store>, places: map<Place, Memory>, floors: map<Place, Epoch>,
      r: RangeId, mem: Memory)
    requires SentOk(c, stores, places, floors) && r in stores && (r, stores[r].leader) !in places
    requires stores[r].serving <= stores[r].leader
    ensures var pl := (r, stores[r].leader);
            SentOk(c, stores[r := stores[r].(lease := mem.lease, serving := stores[r].leader)], places[pl := mem],
                   floors[pl := mem.lease.lo])
  {
  }

  /** Nobody has read or asked under a number that has not been loaded yet. */
  lemma TermOfNewPlace(c: Coord, t: TxId, pl: Place, mem: Memory, stores: map<RangeId, Store>, places: map<Place,
      Memory>, floors: map<Place, Epoch>)
    requires pl.0 in c.parts && SentOk(c, stores, places, floors) && pl !in places && pl.0 in stores
    requires stores[pl.0].serving < pl.1
    requires mem.lock == Locking.FREE
    ensures TermOk(c, t, pl, mem)
  {
  }

  lemma LoadStepKeeps(s: System, r: RangeId, epoch: Epoch, n: nat)
    requires Weak(s) && Enabled(s, LoadRange(r, epoch, n))
    ensures Weak(Apply(s, LoadRange(r, epoch, n)))
  {
    hide PlacesOk, TxOk, SentOk, Known, TermOk, HistoryOk, AppliedOk, Released;
    var s' := Apply(s, LoadRange(r, epoch, n));
    var mem, pl := Load(s.stores[r].lease, epoch, n), (r, s.stores[r].leader);
    LoadPlaces(s.stores, s.places, s.floors, r, mem);
    forall u | u in s.txs ensures SentOk(s.txs[u], s'.stores, s'.places, s'.floors) {
      LoadSent(s.txs[u], s.stores, s.places, s.floors, r, mem);
    }
    forall u | u in s.txs && r in s.txs[u].parts ensures TermOk(s.txs[u], u, pl, mem) {
      TermOfNewPlace(s.txs[u], u, pl, mem, s.stores, s.places, s.floors);
    }
    FreeLock(s.txs, pl, mem, s.applied[r]);
  }

  lemma FreeLock(txs: map<TxId, Coord>, pl: Place, mem: Memory, ap: seq<Entry>)
    requires mem.lock == Locking.FREE
    ensures Known(txs, pl, mem) && Released(mem, ap)
  {
  }

  // ---------------------------------------------------------------- whole runs

  lemma Buffered(s: System, a: Action)
    requires Weak(s) && Enabled(s, a) && (a.DoPut? || a.DoDel?)
    ensures Weak(Apply(s, a))
  {
    hide Weak, TxOk;
    var p := Overlays.PartOf(s.txs[a.t].parts, a.r);
    if a.r in s.txs[a.t].parts { DisjointPart(s, a.t, a.r); }
    if a.DoPut? { BufferStep(s, a.t, a.r, Overlays.BufferPut(p, a.k, a.v)); }
    else { BufferStep(s, a.t, a.r, Overlays.BufferDel(p, a.k)); }
  }

  lemma CoordOk(s: System, t: TxId)
    requires Weak(s) && t in s.txs
    ensures TxOk(s.txs[t], t, s.rows) && SentOk(s.txs[t], s.stores, s.places, s.floors)
  {
    hide PlacesOk, TxOk, SentOk, Known, TermOk, HistoryOk, AppliedOk, Released;
  }

  lemma DisjointPart(s: System, t: TxId, r: RangeId)
    requires Weak(s) && t in s.txs && r in s.txs[t].parts
    ensures Overlays.Disjoint(s.txs[t].parts[r]) && PartOk(s.txs[t].parts[r])
  {
    hide Weak, SentOk;
    CoordOk(s, t);
  }

  lemma GiveUpKeeps(s: System, t: TxId)
    requires Weak(s) && Enabled(s, GiveUp(t))
    ensures Weak(Apply(s, GiveUp(t)))
  {
    hide Weak, SentOk;
    CoordOk(s, t);
    GiveUpStep(s, t, s.txs[t].(phase := Aborted));
  }

  lemma UnloadKeeps(s: System, r: RangeId, m: nat)
    requires Weak(s) && Enabled(s, UnloadRange(r, m))
    ensures Weak(Apply(s, UnloadRange(r, m)))
  {
    hide PlacesOk, TxOk, SentOk, Known, TermOk, HistoryOk, AppliedOk, Released;
  }

  /** Every step keeps the invariant, also those of servers whose number has been replaced. */
  lemma StepWeak(s: System, a: Action)
    requires Weak(s) && Enabled(s, a)
    ensures Weak(Apply(s, a))
  {
    hide Weak;
    match a
    case Begin(t) => BeginStep(s, t);
    case DoPut(t, r, k, v) => Buffered(s, a);
    case DoDel(t, r, k) => Buffered(s, a);
    case AskGet(t, r, m) => AskGetStep(s, t, r, m);
    case FinishGet(t, r, m, k) => FinishGetStep(s, t, r, m, k);
    case StartCommit(t) => StartCommitStep(s, t);
    case AskPrepare(t, r, m) => AskPrepareStep(s, t, r, m);
    case FinishPrepare(t, r, rec) => FinishPrepareStep(s, t, r, rec);
    case Decide(t, readEpoch, e) => DecideKeeps(s, t, readEpoch, e);
    case GiveUp(t) => GiveUpKeeps(s, t);
    case StoreAbort(t) => StoreAbortStep(s, t);
    case RangeAbort(t, r, m) => RangeAbortStep(s, t, r, m);
    case RangeCommit(t, r, m, logged) => RangeCommitStepKeeps(s, t, r, m, logged);
    case RenewLeaseAt(r, m, epoch, n) => RenewLeaseStep(s, r, m, epoch, n);
    case TakeOver(r) => TakeOverStep(s, r);
    case LoadRange(r, epoch, n) => LoadStepKeeps(s, r, epoch, n);
    case UnloadRange(r, m) => UnloadKeeps(s, r, m);
  }

  lemma InitialWeak(s: System)
    requires Initial(s)
    ensures Weak(s)
  {
    hide PlacesOk, Known, Released, TxOk, SentOk, TermOk, FirstLoad;
    InitialPlaces(s);
    forall r | r in s.stores ensures s.applied[r] == [] { InitialAt(s, r); }
    forall pl | pl in s.places
      ensures pl.0 in s.applied && Known(s.txs, pl, s.places[pl]) && Released(s.places[pl], s.applied[pl.0])
    {
      InitialAt(s, pl.0);
      FreeLock(s.txs, pl, s.places[pl], s.applied[pl.0]);
    }
  }

  lemma InitialAt(s: System, r: RangeId)
    requires Initial(s) && r in s.stores
    ensures var pl := (r, s.stores[r].serving);
            && pl in s.places && pl in s.floors && r in s.applied && r in s.base && s.applied[r] == []
            && s.stores[r].serving <= s.stores[r].leader && s.stores[r].lease == s.places[pl].lease
            && PlaceOk(s.stores[r], s.floors[pl], pl.1, s.places[pl]) && s.places[pl].lock == Locking.FREE
  {
    var pl := (r, s.stores[r].serving);
    assert pl in s.places;
    assert FirstLoad(s.stores[r], s.places[pl], s.floors[pl], s.applied[r], s.base[r]);
  }

  lemma InitialPlaces(s: System)
    requires Initial(s)
    ensures PlacesOk(s.stores, s.places, s.floors)
  {
    hide FirstLoad, PlaceOk;
    forall r | r in s.stores
      ensures s.stores[r].serving <= s.stores[r].leader
      ensures (r, s.stores[r].serving) in s.places && s.stores[r].lease == s.places[(r, s.stores[r].serving)].lease
    {
      InitialAt(s, r);
    }
    forall pl | pl in s.places
      ensures pl.0 in s.stores && pl in s.floors && PlaceOk(s.stores[pl.0], s.floors[pl], pl.1, s.places[pl])
    {
      InitialAt(s, pl.0);
    }
  }

  lemma {:induction false} RunWeak(s: System, acts: seq<Action>)
    requires Weak(s) && IsRun(s, acts)
    ensures Weak(After(s, acts))
    decreases |acts|
  {
    hide Weak;
    if acts != [] {
      StepWeak(s, acts[0]);
      RunWeak(Apply(s, acts[0]), acts[1..]);
    }
  }
}
