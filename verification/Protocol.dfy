/**
 * Two-phase commit over exclusively locked ranges: coordinators (coordinator/src/transaction.rs),
 * range managers (rangeserver/src/range_manager/impl.rs) and the decision store
 * (tx_state_store/src/storage/cassandra.rs), any number of each, interleaved one step at a time.
 *
 * A range is served under leader numbers. Taking over installs the next number in the lease row; it does
 * not stop the server that had the previous one, which keeps its locks, records and lease and goes on
 * answering. What all of them share is the lease row and the stored table.
 */
module Protocol {
  import opened Base
  import opened Leasing
  import opened Ranges
  import Locking
  import Records
  import Overlays
  import Decisions

  // ---------------------------------------------------------------- state

  datatype Phase = Running | Preparing | Aborted | Committed(epoch: Epoch)

  /** A range as it is served under one leader number. */
  type Place = (RangeId, nat)

  /**
   * A coordinator's view of its transaction: where the get it is waiting for was sent, where each range
   * was asked to prepare, the prepare replies received, and the buffers.
   */
  datatype Coord = Coord(
    phase: Phase,
    waitingOn: Option<Place>,
    asked: map<RangeId, nat>,
    votes: map<RangeId, Vote>,
    parts: Overlays.Participants)

  const NEW_COORD: Coord := Coord(Running, None, map[], map[], map[])

  /** A committed transaction as it was when decided. */
  datatype Entry = Entry(id: TxId, epoch: Epoch, parts: Overlays.Participants)

  /**
   * The durable part of a range: its lease row and its table. `serving` is the highest number under
   * which it has been loaded so far.
   */
  datatype Store = Store(leader: nat, lease: Lease, serving: nat, table: Records.Table)

  /**
   * `places` is what servers hold in memory and `down` says which of it has been unloaded. As history,
   * `floors` has the lower bound of each number's first lease, `history` lists commits in decision
   * order, `applied` lists them per range in the order they reached storage, and `base` has the tables
   * the system started from.
   */
  datatype System = System(
    stores: map<RangeId, Store>,
    places: map<Place, Memory>,
    down: set<Place>,
    floors: map<Place, Epoch>,
    txs: map<TxId, Coord>,
    rows: Decisions.Rows,
    history: seq<Entry>,
    applied: map<RangeId, seq<Entry>>,
    base: map<RangeId, Records.Table>)

  // ---------------------------------------------------------------- steps

  datatype Action =
    | Begin(t: TxId)
    | DoPut(t: TxId, r: RangeId, k: Bytes, v: Bytes)
    | DoDel(t: TxId, r: RangeId, k: Bytes)
    | AskGet(t: TxId, r: RangeId, m: nat)
    | FinishGet(t: TxId, r: RangeId, m: nat, k: Bytes)
    | StartCommit(t: TxId)
    | AskPrepare(t: TxId, r: RangeId, m: nat)
    | FinishPrepare(t: TxId, r: RangeId, rec: Overlays.Record)
    | Decide(t: TxId, readEpoch: Epoch, e: Epoch)
    | GiveUp(t: TxId)
    | StoreAbort(t: TxId)
    | RangeAbort(t: TxId, r: RangeId, m: nat)
    | RangeCommit(t: TxId, r: RangeId, m: nat, logged: bool)
    | RenewLeaseAt(r: RangeId, m: nat, epoch: Epoch, n: nat)
    | TakeOver(r: RangeId)
    | LoadRange(r: RangeId, epoch: Epoch, n: nat)
    | UnloadRange(r: RangeId, m: nat)

  predicate Is(s: System, t: TxId, phase: Phase) {
    t in s.txs && s.txs[t].phase == phase
  }

  predicate Idle(s: System, t: TxId) {
    Is(s, t, Running) && s.txs[t].waitingOn == None
  }

  /** Some server answers for the range under this number, be it the latest one or not. */
  predicate Up(s: System, r: RangeId, m: nat) {
    r in s.stores && r in s.applied && (r, m) in s.places && (r, m) !in s.down
  }

  ghost predicate Enabled(s: System, a: Action) {
    match a
    case Begin(t) => t !in s.txs
    case DoPut(t, r, _, _) => Idle(s, t) && r in s.stores
    case DoDel(t, r, _) => Idle(s, t) && r in s.stores
    case AskGet(t, r, m) => Idle(s, t) && Up(s, r, m)
    case FinishGet(t, r, m, k) =>
      && Is(s, t, Running) && s.txs[t].waitingOn == Some((r, m))
      && Up(s, r, m) && Holds(s.places[(r, m)], t)
      && !Overlays.Buffered(Overlays.PartOf(s.txs[t].parts, r), k)
    case StartCommit(t) => Idle(s, t)
    case AskPrepare(t, r, m) =>
      Is(s, t, Preparing) && r in s.txs[t].parts && r !in s.txs[t].asked && Up(s, r, m)
    case FinishPrepare(t, r, rec) =>
      && Is(s, t, Preparing) && r in s.txs[t].asked && r !in s.txs[t].votes && r in s.txs[t].parts
      && Up(s, r, s.txs[t].asked[r]) && Holds(s.places[(r, s.txs[t].asked[r])], t)
      && Overlays.Enumerates(rec, s.txs[t].parts[r])
    case Decide(t, readEpoch, e) =>
      && Is(s, t, Preparing) && s.txs[t].votes.Keys == s.txs[t].parts.Keys
      && IsCommitEpoch(e, readEpoch, s.txs[t].votes)
    case GiveUp(t) => Idle(s, t) || Is(s, t, Preparing)
    case StoreAbort(t) => t in s.txs
    case RangeAbort(t, r, m) => Is(s, t, Aborted) && r in s.txs[t].parts && Up(s, r, m)
    case RangeCommit(t, r, m, _) =>
      t in s.txs && s.txs[t].phase.Committed? && r in s.txs[t].parts && Up(s, r, m)
    case RenewLeaseAt(r, m, epoch, n) => Up(s, r, m) && DueForRenewal(s.places[(r, m)].lease, epoch, n)
    case TakeOver(r) => r in s.stores
    case LoadRange(r, _, _) => r in s.stores && s.stores[r].serving < s.stores[r].leader
    case UnloadRange(r, m) => Up(s, r, m)
  }

  /** The commit epoch: the highest of the epoch read and the epochs the participants report. */
  ghost predicate IsCommitEpoch(e: Epoch, readEpoch: Epoch, votes: map<RangeId, Vote>) {
    && e >= readEpoch
    && (forall r :: r in votes ==> e >= votes[r].highest)
    && (e == readEpoch || exists r :: r in votes && e == votes[r].highest)
  }

  predicate LeasesCover(votes: map<RangeId, Vote>, e: Epoch) {
    forall r :: r in votes ==> Covers(votes[r].lease, e)
  }

  function SetCoord(s: System, t: TxId, c: Coord): System {
    s.(txs := s.txs[t := c])
  }

  function SetMemory(s: System, pl: Place, mem: Memory): System {
    s.(places := s.places[pl := mem])
  }

  function SetPart(c: Coord, r: RangeId, p: Overlays.Participant): Coord {
    c.(parts := c.parts[r := p])
  }

  function Asking(c: Coord, r: RangeId, m: nat): Coord {
    SetPart(c, r, Overlays.PartOf(c.parts, r)).(waitingOn := Some((r, m)))
  }

  /** The reply to a get: the value is kept unless the range has changed leader since an earlier get. */
  function TakeReply(c: Coord, r: RangeId, k: Bytes, val: Option<Bytes>, leaderSeq: nat): Coord {
    var p := Overlays.PartOf(c.parts, r);
    var leader := if p.leader == Overlays.UNSET_LEADER then leaderSeq else p.leader;
    if leader != leaderSeq then c.(phase := Aborted, waitingOn := None)
    else SetPart(c, r, p.(seen := p.seen + {(k, val)}, leader := leader)).(waitingOn := None)
  }

  /** What a prepare request does to the lock: with reads it must still be held, without reads it is requested now. */
  function Asked(c: Coord, t: TxId, r: RangeId, mem: Memory): Memory
    requires r in c.parts
  {
    if c.parts[r].seen == {} then Request(mem, t) else mem
  }

  /** A decision to commit is taken: every lease covers the epoch and the store accepts. */
  predicate Commits(s: System, t: TxId, e: Epoch)
    requires t in s.txs
  {
    LeasesCover(s.txs[t].votes, e) && Decisions.TryCommit(s.rows, t, e).1.TransactionIsCommitted?
  }

  function DecideStep(s: System, t: TxId, e: Epoch): System
    requires t in s.txs
  {
    var c := s.txs[t];
    if !LeasesCover(c.votes, e) then SetCoord(s, t, c.(phase := Aborted))
    else if !Commits(s, t, e) then s
    else SetCoord(s, t, c.(phase := Committed(e))).(
      rows := Decisions.TryCommit(s.rows, t, e).0,
      history := s.history + [Entry(t, e, c.parts)])
  }

  /** A decision changes one coordinator, the decision store and the history. */
  lemma DecideTouches(s: System, t: TxId, e: Epoch)
    requires t in s.txs
    ensures var s' := DecideStep(s, t, e);
            && s' == s.(txs := s'.txs, rows := s'.rows, history := s'.history)
            && t in s'.txs && s'.txs == s.txs[t := s'.txs[t]] && s'.txs[t].parts == s.txs[t].parts
  {
    hide LeasesCover, Commits, Decisions.TryCommit;
    var s', c := DecideStep(s, t, e), s.txs[t];
    if !LeasesCover(c.votes, e) { assert s'.txs == s.txs[t := c.(phase := Aborted)]; }
    else if Commits(s, t, e) { assert s'.txs == s.txs[t := c.(phase := Committed(e))]; }
    else { SameCoord(s.txs, t); }
  }

  lemma SameCoord(txs: map<TxId, Coord>, t: TxId)
    requires t in txs
    ensures txs[t := txs[t]] == txs
  {
  }

  function RangeCommitStep(s: System, t: TxId, r: RangeId, m: nat, logged: bool): System
    requires t in s.txs && s.txs[t].phase.Committed? && Up(s, r, m)
  {
    var c, mem := s.txs[t], s.places[(r, m)];
    var e := c.phase.epoch;
    if !logged then SetMemory(s, (r, m), CommitLogFailure(mem, t, e))
    else if !Holds(mem, t) then s
    else SetMemory(s, (r, m), Commit(mem, t, e)).(
      stores := s.stores[r := s.stores[r].(table := Written(mem, s.stores[r].table, t, e))],
      applied := s.applied[r := s.applied[r] + [Entry(t, e, c.parts)]])
  }

  /** The conditional write of the lease row succeeds for the number in the row only; otherwise nothing changes. */
  function RenewStep(s: System, r: RangeId, m: nat, epoch: Epoch, n: nat): System
    requires Up(s, r, m)
  {
    if s.stores[r].leader != m then s
    else
      var mem := Renew(s.places[(r, m)], epoch, n);
      SetMemory(s, (r, m), mem).(stores := s.stores[r := s.stores[r].(lease := mem.lease)])
  }

  /** Whoever took the number now in the row finishes loading; no other load can write the row. */
  function LoadStep(s: System, r: RangeId, epoch: Epoch, n: nat): System
    requires r in s.stores
  {
    var st := s.stores[r];
    var mem := Load(st.lease, epoch, n);
    SetMemory(s, (r, st.leader), mem).(
      stores := s.stores[r := st.(lease := mem.lease, serving := st.leader)],
      floors := s.floors[(r, st.leader) := mem.lease.lo])
  }

  ghost function Apply(s: System, a: Action): System
    requires Enabled(s, a)
  {
    match a
    case Begin(t) => SetCoord(s, t, NEW_COORD).(rows := Decisions.Start(s.rows, t))
    case DoPut(t, r, k, v) =>
      var c := s.txs[t]; SetCoord(s, t, SetPart(c, r, Overlays.BufferPut(Overlays.PartOf(c.parts, r), k, v)))
    case DoDel(t, r, k) =>
      var c := s.txs[t]; SetCoord(s, t, SetPart(c, r, Overlays.BufferDel(Overlays.PartOf(c.parts, r), k)))
    case AskGet(t, r, m) =>
      SetMemory(SetCoord(s, t, Asking(s.txs[t], r, m)), (r, m), Request(s.places[(r, m)], t))
    case FinishGet(t, r, m, k) =>
      SetCoord(s, t, TakeReply(s.txs[t], r, k, Records.Get(s.stores[r].table, k), m))
    case StartCommit(t) => SetCoord(s, t, s.txs[t].(phase := Preparing))
    case AskPrepare(t, r, m) =>
      var c := s.txs[t];
      SetMemory(SetCoord(s, t, c.(asked := c.asked[r := m])), (r, m), Asked(c, t, r, s.places[(r, m)]))
    case FinishPrepare(t, r, rec) =>
      var c := s.txs[t];
      var pl := (r, c.asked[r]);
      SetMemory(SetCoord(s, t, c.(votes := c.votes[r := VoteOf(s.places[pl])])), pl, Prepare(s.places[pl], t, rec))
    case Decide(t, _, e) => DecideStep(s, t, e)
    case GiveUp(t) => SetCoord(s, t, s.txs[t].(phase := Aborted))
    case StoreAbort(t) => s.(rows := Decisions.TryAbort(s.rows, t).0)
    case RangeAbort(t, r, m) => SetMemory(s, (r, m), Abort(s.places[(r, m)], t))
    case RangeCommit(t, r, m, logged) => RangeCommitStep(s, t, r, m, logged)
    case RenewLeaseAt(r, m, epoch, n) => RenewStep(s, r, m, epoch, n)
    case TakeOver(r) => s.(stores := s.stores[r := s.stores[r].(leader := s.stores[r].leader + 1)])
    case LoadRange(r, epoch, n) => LoadStep(s, r, epoch, n)
    case UnloadRange(r, m) => s.(down := s.down + {(r, m)})
  }

  /** What a step does to the decision store. */
  function RowsAfter(s: System, a: Action): Decisions.Rows
    requires a.Decide? ==> a.t in s.txs
  {
    match a
    case Begin(t) => Decisions.Start(s.rows, t)
    case StoreAbort(t) => Decisions.TryAbort(s.rows, t).0
    case Decide(t, _, e) => if Commits(s, t, e) then Decisions.TryCommit(s.rows, t, e).0 else s.rows
    case _ => s.rows
  }

  lemma RowsFrame(s: System, a: Action)
    requires Enabled(s, a)
    ensures a.Decide? ==> Is(s, a.t, Preparing)
    ensures a.Begin? ==> a.t !in s.txs
    ensures Apply(s, a).rows == RowsAfter(s, a)
  {
    hide TakeReply, LeasesCover, Written, Renew, Load, Commit, Decisions.TryCommit, Decisions.TryAbort, Asked,
         Overlays.Enumerates, IsCommitEpoch;
  }

  /** Only what was loaded once has been unloaded. */
  ghost predicate DownKnown(s: System) {
    s.down <= s.places.Keys
  }

  lemma StepDown(s: System, a: Action)
    requires Enabled(s, a) && DownKnown(s)
    ensures DownKnown(Apply(s, a))
  {
    hide TakeReply, LeasesCover, Written, Renew, Load, Commit, Decisions.TryCommit, Decisions.TryAbort, Asked,
         Overlays.Enumerates,
         IsCommitEpoch, Request, Abort, CommitLogFailure, Overlays.Buffered;
    match a
    case RangeCommit(t, r, m, logged) =>
    case RenewLeaseAt(r, m, epoch, n) =>
    case LoadRange(r, epoch, n) =>
    case UnloadRange(r, m) =>
    case Decide(t, _, e) => DecideTouches(s, t, e);
    case _ =>
  }

  ghost predicate Decided(rows: Decisions.Rows, t: TxId) {
    t in rows && !rows[t].Started?
  }

  /** No step changes a decision save one that decides the transaction again. */
  lemma RowKept(s: System, a: Action, t: TxId)
    requires Decided(s.rows, t) && (a.Begin? ==> a.t != t)
    requires a.Decide? ==> a.t in s.txs && (a.t == t ==> !s.rows[t].Committed?)
    ensures Decided(RowsAfter(s, a), t) && RowsAfter(s, a)[t] == s.rows[t]
  {
    hide LeasesCover;
  }

  /** Decided transactions, the history and what has been applied stay as they are. */
  ghost predicate Undecided(s: System, s': System) {
    && s'.history == s.history && s'.applied == s.applied
    && forall t :: t in s.txs && s.txs[t].phase.Committed? ==> t in s'.txs && s'.txs[t] == s.txs[t]
  }

  predicate AtLeader(a: Action) {
    a.StoreAbort? || a.RangeAbort? || a.RenewLeaseAt? || a.TakeOver? || a.LoadRange? || a.UnloadRange?
  }

  lemma CoordFrame(s: System, a: Action)
    requires Enabled(s, a)
    requires !AtLeader(a) && !a.Decide? && !a.RangeCommit?
    ensures Undecided(s, Apply(s, a))
  {
    hide TakeReply, Asked, Request, Prepare, Overlays.Enumerates, Overlays.Buffered, Overlays.BufferPut,
         Overlays.BufferDel, Records.Get,
         Decisions.Start, SetPart;
  }

  lemma LeaderStepFrame(s: System, a: Action)
    requires Enabled(s, a) && AtLeader(a)
    ensures Undecided(s, Apply(s, a)) && Apply(s, a).txs == s.txs && Apply(s, a).base == s.base
  {
    hide Abort, Renew, Load, Decisions.TryAbort;
    var s' := Apply(s, a);
    match a
    case StoreAbort(_) => assert s' == s.(rows := s'.rows);
    case RangeAbort(_, _, _) => assert s' == s.(places := s'.places);
    case RenewLeaseAt(_, _, _, _) => assert s' == s.(stores := s'.stores, places := s'.places);
    case TakeOver(_) => assert s' == s.(stores := s'.stores);
    case LoadRange(_, _, _) => assert s' == s.(stores := s'.stores, places := s'.places, floors := s'.floors);
    case UnloadRange(_, _) => assert s' == s.(down := s'.down);
  }

  // ---------------------------------------------------------------- runs

  /**
   * Ranges loaded once, over any stored tables whose rows lie within what the first leases admit, with any
   * numbers, leases and known epochs.
   */
  ghost predicate Initial(s: System) {
    && s.txs == map[] && s.rows == map[] && s.history == [] && s.down == {}
    && s.applied.Keys == s.stores.Keys == s.base.Keys
    && (forall pl :: pl in s.places <==> pl.0 in s.stores && pl.1 == s.stores[pl.0].serving)
    && s.floors.Keys == s.places.Keys
    && forall r :: r in s.stores ==>
         FirstLoad(s.stores[r], s.places[(r, s.stores[r].serving)], s.floors[(r, s.stores[r].serving)],
                                               s.applied[r], s.base[r])
  }

  ghost predicate FirstLoad(st: Store, mem: Memory, floor: Epoch, ap: seq<Entry>, b: Records.Table) {
    && 0 < st.serving <= st.leader && st.lease == mem.lease && floor <= mem.lease.lo <= mem.lease.hi
    && mem.lock == Locking.FREE && mem.prepared == map[]
    && ap == [] && st.table == b && Records.WellFormed(b)
    && forall k, e :: HasRow(b, k, e) ==> Bounded(mem.lease.hi, VoteOf(mem), e)
  }

  ghost predicate HasRow(t: Records.Table, k: Bytes, e: Epoch) {
    Records.Lookup(Records.RowsOf(t, k), e).Some?
  }

  /** An epoch already used at the range lies within what has been leased, and below anything a new vote admits. */
  predicate Bounded(hi: Epoch, v: Vote, e: Epoch) {
    e <= hi && (e <= v.highest || e < v.lease.lo)
  }

  ghost predicate IsRun(s: System, acts: seq<Action>)
    decreases |acts|
  {
    acts == [] || (Enabled(s, acts[0]) && IsRun(Apply(s, acts[0]), acts[1..]))
  }

  ghost function After(s: System, acts: seq<Action>): System
    requires IsRun(s, acts)
    decreases |acts|
  {
    if acts == [] then s else After(Apply(s, acts[0]), acts[1..])
  }

  // ---------------------------------------------------------------- the serial reference

  /** The value of a key after the listed transactions executed one after the other, whole, on a stored table. */
  function ValueAfter(b: Records.Table, h: seq<Entry>, r: RangeId, k: Bytes): Option<Bytes>
    decreases |h|
  {
    if h == [] then Records.Get(b, k)
    else
      var before := ValueAfter(b, h[..|h| - 1], r, k);
      var last := h[|h| - 1];
      if r in last.parts then Overlays.ReadThrough(last.parts[r], k, before) else before
  }

  /** The transactions of a history that involve a range. */
  function Project(h: seq<Entry>, r: RangeId): seq<Entry>
    decreases |h|
  {
    if h == [] then []
    else Project(h[..|h| - 1], r) + (if r in h[|h| - 1].parts then [h[|h| - 1]] else [])
  }

  lemma {:induction false} ProjectKeepsValues(b: Records.Table, h: seq<Entry>, r: RangeId, k: Bytes)
    ensures ValueAfter(b, Project(h, r), r, k) == ValueAfter(b, h, r, k)
    decreases |h|
  {
    if h != [] {
      ProjectKeepsValues(b, h[..|h| - 1], r, k);
      var p := Project(h[..|h| - 1], r);
      if r in h[|h| - 1].parts {
        assert (p + [h[|h| - 1]])[..|p|] == p;
      } else {
        assert p + [] == p;
      }
    }
  }

  lemma {:induction false} ProjectMembers(h: seq<Entry>, r: RangeId, x: Entry)
    ensures x in Project(h, r) <==> x in h && r in x.parts
    decreases |h|
  {
    if h != [] {
      ProjectMembers(h[..|h| - 1], r, x);
      assert x in h <==> x in h[..|h| - 1] || x == h[|h| - 1];
    }
  }

  lemma ProjectAppend(h: seq<Entry>, x: Entry, r: RangeId)
    ensures Project(h + [x], r) == Project(h, r) + (if r in x.parts then [x] else [])
  {
    assert (h + [x])[..|h|] == h;
  }

  /**
   * Every read of the i-th transaction, also each of several of one key, is what the transactions before it left
   * behind.
   */
  ghost predicate ReadsFit(base: map<RangeId, Records.Table>, h: seq<Entry>, i: nat)
    requires i < |h|
  {
    forall r, x :: r in h[i].parts && r in base && x in h[i].parts[r].seen ==>
                     x.1 == ValueAfter(base[r], h[..i], r, x.0)
  }
}
