/** What the commit protocol keeps about stored data, as long as no step does harm. */
module ProtocolInvariant {
  import opened Base
  import opened Ranges
  import opened Protocol
  import opened ProtocolLocks
  import opened ProtocolOrder
  import Records
  import Overlays

  // ---------------------------------------------------------------- commits on their way

  /** The place of the highest number a range has been loaded under. */
  function ServingPlace(s: System, r: RangeId): Place
    requires r in s.stores
  {
    (r, s.stores[r].serving)
  }

  predicate IsCommitted(txs: map<TxId, Coord>, t: TxId, r: RangeId) {
    t in txs && txs[t].phase.Committed? && r in txs[t].parts
  }

  function DueAt(txs: map<TxId, Coord>, mem: Memory, up: bool, r: RangeId): Option<Overlays.Participant> {
    match mem.lock.holder
    case None => None
    case Some(t) => if up && IsCommitted(txs, t, r) then Some(txs[t].parts[r]) else None
  }

  /**
   * The writes on their way to the serving leader, which is loaded: those of the decided transaction that holds
   * its lock.
   */
  function Due(s: System, r: RangeId): Option<Overlays.Participant>
    requires r in s.stores && ServingPlace(s, r) in s.places
  {
    DueAt(s.txs, s.places[ServingPlace(s, r)], ServingPlace(s, r) !in s.down, r)
  }

  /** A decided transaction on its way to a leader that has been succeeded but is still loaded. */
  predicate Late(s: System, t: TxId, r: RangeId) {
    && IsCommitted(s.txs, t, r) && r in s.txs[t].asked && r in s.stores
    && var pl := (r, s.txs[t].asked[r]);
       pl in s.places && pl !in s.down && pl != ServingPlace(s, r) && Holds(s.places[pl], t)
  }

  predicate Settles(due: Option<Overlays.Participant>, k: Bytes) {
    due.Some? && Overlays.Buffered(due.value, k)
  }

  /** What a key will read as once the due writes are there. */
  function Visible(due: Option<Overlays.Participant>, k: Bytes, stored: Option<Bytes>): Option<Bytes> {
    if due.Some? then Overlays.ReadThrough(due.value, k, stored) else stored
  }

  /** What a participant writes to a key it has buffered. */
  function Wrote(p: Overlays.Participant, k: Bytes): Option<Bytes> {
    Overlays.ReadThrough(p, k, None)
  }

  // ---------------------------------------------------------------- the condition

  /** A vote that the serving leader, still loaded, has given. */
  predicate VoteStands(s: System, t: TxId, r: RangeId)
    requires t in s.txs && r in s.stores
  {
    r in s.txs[t].asked && (r, s.txs[t].asked[r]) == ServingPlace(s, r) && ServingPlace(s, r) !in s.down
  }

  /** What the participant read is not what the history left behind, or what it writes changes that. */
  ghost predicate Disturbs(b: Records.Table, h: seq<Entry>, r: RangeId, p: Overlays.Participant) {
    || (exists x :: x in p.seen && x.1 != ValueAfter(b, h, r, x.0))
    || (exists k :: Overlays.Buffered(p, k) && Wrote(p, k) != ValueAfter(b, h, r, k))
  }

  /**
   * Without the due writes the range would not read as the history does: a key they write is stored with
   * another value, or may still get one from a late commit.
   */
  ghost predicate Needed(s: System, r: RangeId)
    requires r in s.stores && r in s.base && ServingPlace(s, r) in s.places
  {
    exists k :: Settles(Due(s, r), k) && Unsettled(s, r, k)
  }

  ghost predicate Unsettled(s: System, r: RangeId, k: Bytes)
    requires r in s.stores && r in s.base
  {
    var v := ValueAfter(s.base[r], s.history, r, k);
    || Records.Get(s.stores[r].table, k) != v
    || exists u :: Late(s, u, r) && MaySet(s.stores[r].table, s.txs[u].parts[r], s.txs[u].phase.epoch, k)
                   && Wrote(s.txs[u].parts[r], k) != v
  }

  /** A commit of the participant at epoch e would decide what the key reads as. */
  ghost predicate MaySet(tb: Records.Table, p: Overlays.Participant, e: Epoch, k: Bytes) {
    Overlays.Buffered(p, k) && !Overlays.Hidden(tb, k, e)
  }

  /**
   * The steps that do harm: deciding on a vote of a leader that has been succeeded or unloaded although the
   * reads there are stale or the writes there change something; and succeeding or unloading a leader that
   * due writes are needed at.
   */
  ghost predicate Harms(s: System, a: Action) {
    match a
    case Decide(t, _, e) =>
      && t in s.txs && Commits(s, t, e)
      && exists r :: r in s.txs[t].votes && r in s.txs[t].parts && r in s.stores && r in s.base
                     && !VoteStands(s, t, r) && Disturbs(s.base[r], s.history, r, s.txs[t].parts[r])
    case LoadRange(r, _, _) => r in s.stores && r in s.base && ServingPlace(s, r) in s.places && Needed(s, r)
    case UnloadRange(r, m) =>
      r in s.stores && r in s.base && ServingPlace(s, r) in s.places && m == s.stores[r].serving && Needed(s, r)
    case _ => false
  }

  // ---------------------------------------------------------------- the invariant

  ghost predicate AllBounded(hi: Epoch, tb: Records.Table, v: Vote) {
    forall k, e :: HasRow(tb, k, e) ==> Bounded(hi, v, e)
  }

  ghost predicate RowsOk(mem: Memory, tb: Records.Table) {
    Records.WellFormed(tb) && AllBounded(mem.lease.hi, tb, VoteOf(mem))
  }

  /** With the due writes, the range reads as the history does. */
  ghost predicate Current(b: Records.Table, h: seq<Entry>, r: RangeId, tb: Records.Table,
      due: Option<Overlays.Participant>) {
    forall k :: Visible(due, k, Records.Get(tb, k)) == ValueAfter(b, h, r, k)
  }

  /** The values read are still those stored. */
  ghost predicate Fresh(p: Overlays.Participant, tb: Records.Table) {
    forall x :: x in p.seen ==> x.1 == Records.Get(tb, x.0)
  }

  /** What a transaction read, voted or was decided under the serving number fits what is stored. */
  ghost predicate PairOk(c: Coord, t: TxId, r: RangeId, m: nat, mem: Memory, tb: Records.Table)
    requires r in c.parts
  {
    && (Live(c) && c.parts[r].leader == m ==> Fresh(c.parts[r], tb))
    && (c.phase.Preparing? && r in c.votes && r in c.asked && c.asked[r] == m ==>
           AllBounded(mem.lease.hi, tb, c.votes[r]))
    && (c.phase.Committed? && Holds(mem, t) ==> Overlays.UpTo(tb, c.phase.epoch))
  }

  /**
   * A late commit changes nothing: each of its rows is hidden, says what the history says, or is about to be
   * hidden.
   */
  ghost predicate LateOk(p: Overlays.Participant, e: Epoch, b: Records.Table, h: seq<Entry>, r: RangeId,
      tb: Records.Table,
                         due: Option<Overlays.Participant>)
  {
    forall k :: MaySet(tb, p, e, k) ==> Wrote(p, k) == ValueAfter(b, h, r, k) || Settles(due, k)
  }

  ghost predicate Shaped(s: System) {
    && s.applied.Keys == s.stores.Keys == s.base.Keys
    && (forall r :: r in s.stores ==> ServingPlace(s, r) in s.places)
    && (forall t :: t in s.txs ==> s.txs[t].parts.Keys <= s.stores.Keys)
  }

  /** One range at its serving place. */
  ghost predicate Served(s: System, r: RangeId)
    requires r in s.stores && r in s.base && ServingPlace(s, r) in s.places
  {
    && RowsOk(s.places[ServingPlace(s, r)], s.stores[r].table)
    && Current(s.base[r], s.history, r, s.stores[r].table, Due(s, r))
  }

  /** One transaction at one of its ranges. */
  ghost predicate Paired(s: System, t: TxId, r: RangeId)
    requires t in s.txs && r in s.txs[t].parts && r in s.stores && r in s.base && ServingPlace(s, r) in s.places
  {
    && PairOk(s.txs[t], t, r, s.stores[r].serving, s.places[ServingPlace(s, r)], s.stores[r].table)
    && (Late(s, t, r) ==>
          LateOk(s.txs[t].parts[r], s.txs[t].phase.epoch, s.base[r], s.history, r, s.stores[r].table, Due(s, r)))
  }

  ghost predicate AllServed(s: System)
    requires Shaped(s)
  {
    forall r :: r in s.stores ==> Served(s, r)
  }

  ghost predicate AllPaired(s: System)
    requires Shaped(s)
  {
    forall t, r :: t in s.txs && r in s.txs[t].parts ==> Paired(s, t, r)
  }

  ghost predicate AllFit(s: System) {
    forall i :: 0 <= i < |s.history| ==> ReadsFit(s.base, s.history, i)
  }

  ghost predicate Data(s: System) {
    Shaped(s) && AllServed(s) && AllPaired(s) && AllFit(s)
  }

  ghost predicate Inv(s: System) {
    Weak(s) && Order(s) && Data(s) && DownKnown(s)
  }

  lemma WeakShaped(s: System)
    requires Weak(s)
    ensures Shaped(s)
  {
    hide TxOk, Known, TermOk, HistoryOk, AppliedOk, Released, PlaceOk;
    forall t | t in s.txs ensures s.txs[t].parts.Keys <= s.stores.Keys {
      assert SentOk(s.txs[t], s.stores, s.places, s.floors);
    }
    hide SentOk;
  }

  lemma PairAt(s: System, t: TxId, r: RangeId)
    requires Data(s) && t in s.txs && r in s.txs[t].parts
    ensures r in s.stores && r in s.base && r in s.applied && ServingPlace(s, r) in s.places && Paired(s, t, r)
  {
    hide AllServed, AllFit, Paired;
  }

  lemma RangeAt(s: System, r: RangeId)
    requires Data(s) && r in s.stores
    ensures r in s.base && r in s.applied && ServingPlace(s, r) in s.places && Served(s, r)
  {
    hide AllPaired, AllFit, Served;
  }

  // ---------------------------------------------------------------- frames

  lemma DueOtherwise(txs: map<TxId, Coord>, t: TxId, c: Coord, mem: Memory, up: bool, r: RangeId)
    requires !c.phase.Committed? && (t in txs ==> !txs[t].phase.Committed?)
    ensures DueAt(txs[t := c], mem, up, r) == DueAt(txs, mem, up, r)
  {
  }

  /** A step that changes one undecided coordinator only. */
  lemma CoordData(s: System, t: TxId, c: Coord)
    requires Data(s) && !c.phase.Committed? && (t in s.txs ==> !s.txs[t].phase.Committed?)
    requires c.parts.Keys <= s.stores.Keys
    requires forall r :: r in c.parts ==>
               PairOk(c, t, r, s.stores[r].serving, s.places[ServingPlace(s, r)], s.stores[r].table)
    ensures Data(SetCoord(s, t, c))
  {
    var s' := SetCoord(s, t, c);
    assert Shaped(s');
    hide Shaped, Served, Paired, AllFit;
    forall r | r in s'.stores ensures Served(s', r) { CoordServed(s, t, c, r); }
    forall u, r | u in s'.txs && r in s'.txs[u].parts ensures Paired(s', u, r) { CoordPaired(s, t, c, u, r); }
    assert AllFit(s') by { CoordFit(s, t, c); }
  }

  lemma CoordFit(s: System, t: TxId, c: Coord)
    requires AllFit(s)
    ensures AllFit(SetCoord(s, t, c))
  {
    hide ReadsFit;
  }

  lemma CoordServed(s: System, t: TxId, c: Coord, r: RangeId)
    requires Data(s) && !c.phase.Committed? && (t in s.txs ==> !s.txs[t].phase.Committed?) && r in s.stores
    ensures var s' := SetCoord(s, t, c); r in s'.base && ServingPlace(s', r) in s'.places && Served(s', r)
  {
    hide Data, RowsOk, Current, DueAt;
    RangeAt(s, r);
    DueOtherwise(s.txs, t, c, s.places[ServingPlace(s, r)], ServingPlace(s, r) !in s.down, r);
  }

  lemma CoordPaired(s: System, t: TxId, c: Coord, u: TxId, r: RangeId)
    requires Data(s) && !c.phase.Committed? && (t in s.txs ==> !s.txs[t].phase.Committed?)
    requires u in s.txs[t := c] && r in s.txs[t := c][u].parts && r in s.stores && ServingPlace(s, r) in s.places
    requires u == t ==> PairOk(c, t, r, s.stores[r].serving, s.places[ServingPlace(s, r)], s.stores[r].table)
    ensures var s' := SetCoord(s, t, c); r in s'.base && ServingPlace(s', r) in s'.places && Paired(s', u, r)
  {
    hide Data, PairOk, LateOk, DueAt;
    RangeAt(s, r);
    if u != t {
      PairAt(s, u, r);
      DueOtherwise(s.txs, t, c, s.places[ServingPlace(s, r)], ServingPlace(s, r) !in s.down, r);
    }
  }

  /** The two states differ at one range only, and have the same transactions and history. */
  ghost predicate Local(s: System, s': System, r: RangeId) {
    && s'.txs == s.txs && s'.history == s.history && s'.base == s.base
    && s'.applied.Keys == s.applied.Keys && s'.stores.Keys == s.stores.Keys
    && (forall q :: q in s.stores && q != r ==> s'.stores[q] == s.stores[q])
    && (forall pl: Place :: pl.0 != r ==> (pl in s'.places <==> pl in s.places) && (pl in s'.down <==> pl in s.down))
    && (forall pl: Place :: pl.0 != r && pl in s.places ==> s'.places[pl] == s.places[pl])
  }

  /** A step at one range, whatever it does there. */
  lemma LocalData(s: System, s': System, r: RangeId)
    requires Data(s) && Local(s, s', r) && Shaped(s') && r in s.stores && Served(s', r)
    requires forall u :: u in s'.txs && r in s'.txs[u].parts ==> Paired(s', u, r)
    ensures Data(s')
  {
    hide Data, Local, Served, Paired, AllFit;
    LocalSame(s, s', r);
    assert Data(s') by {
      forall q | q in s'.stores ensures Served(s', q) { if q != r { LocalServed(s, s', r, q); } }
      forall u, q | u in s'.txs && q in s'.txs[u].parts
        ensures Paired(s', u, q)
      {
        if q != r { LocalPaired(s, s', r, u, q); }
      }
      LocalAll(s');
    }
  }

  lemma LocalAll(s: System)
    requires Shaped(s) && AllFit(s) && (forall q :: q in s.stores ==> Served(s, q))
    requires forall u, q :: u in s.txs && q in s.txs[u].parts ==> Paired(s, u, q)
    ensures Data(s)
  {
    hide Served, Paired, AllFit;
  }

  lemma LocalSame(s: System, s': System, r: RangeId)
    requires Local(s, s', r) && Data(s)
    ensures s'.txs == s.txs && s'.stores.Keys == s.stores.Keys && AllFit(s')
  {
    hide AllServed, AllPaired, ReadsFit;
  }

  lemma LocalServed(s: System, s': System, r: RangeId, q: RangeId)
    requires Data(s) && Local(s, s', r) && q in s.stores && q != r
    ensures q in s'.stores && q in s'.base && ServingPlace(s', q) in s'.places && Served(s', q)
  {
    hide Data, RowsOk, Current;
    RangeAt(s, q);
  }

  lemma LocalPaired(s: System, s': System, r: RangeId, u: TxId, q: RangeId)
    requires Data(s) && Local(s, s', r) && u in s.txs && q in s.txs[u].parts && q != r
    ensures q in s'.stores && q in s'.base && ServingPlace(s', q) in s'.places && u in s'.txs && Paired(s', u, q)
  {
    hide Data, PairOk, LateOk;
    PairAt(s, u, q);
  }
}
