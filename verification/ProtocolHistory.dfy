/**
 * What a run's steps say about its transactions: the reads and buffers that the protocol's theorems speak of are
 * exactly the gets answered and the puts and deletes made in the run.
 */
module ProtocolHistory {
  import opened Base
  import opened Ranges
  import opened Protocol
  import opened ProtocolLocks
  import opened Serializability
  import opened ProtocolInvariant
  import ProtocolOrder
  import Records
  import Overlays
  import Decisions

  // ---------------------------------------------------------------- reads

  /** What a step answers to a get of the transaction at a range. */
  ghost function ReadOf(s: System, a: Action, t: TxId, r: RangeId): set<(Bytes, Option<Bytes>)>
    requires Enabled(s, a)
  {
    if a.FinishGet? && a.t == t && a.r == r then {(a.k, Records.Get(s.stores[r].table, a.k))} else {}
  }

  /** What gets of the transaction at a range have been answered in a run. */
  ghost function ReadsIn(s: System, acts: seq<Action>, t: TxId, r: RangeId): set<(Bytes, Option<Bytes>)>
    requires IsRun(s, acts)
    decreases |acts|
  {
    if acts == [] then {} else ReadOf(s, acts[0], t, r) + ReadsIn(Apply(s, acts[0]), acts[1..], t, r)
  }

  function PartAt(s: System, t: TxId, r: RangeId): Overlays.Participant {
    if t in s.txs then Overlays.PartOf(s.txs[t].parts, r) else Overlays.FRESH
  }

  /** What a step of a coordinator makes of it. */
  ghost function CoordAfter(s: System, a: Action): Coord
    requires Enabled(s, a) && !AtLeader(a) && !a.RangeCommit?
  {
    match a
    case Begin(t) => NEW_COORD
    case DoPut(t, r, k, v) =>
      SetPart(s.txs[t], r, Overlays.BufferPut(Overlays.PartOf(s.txs[t].parts, r), k, v))
    case DoDel(t, r, k) => SetPart(s.txs[t], r, Overlays.BufferDel(Overlays.PartOf(s.txs[t].parts, r), k))
    case AskGet(t, r, m) => Asking(s.txs[t], r, m)
    case FinishGet(t, r, m, k) => TakeReply(s.txs[t], r, k, Records.Get(s.stores[r].table, k), m)
    case StartCommit(t) => s.txs[t].(phase := Preparing)
    case AskPrepare(t, r, m) => s.txs[t].(asked := s.txs[t].asked[r := m])
    case FinishPrepare(t, r, rec) => s.txs[t].(votes := s.txs[t].votes[r := VoteOf(s.places[(r, s.txs[t].asked[r])])])
    case Decide(t, _, e) => s.txs[t].(phase := DecideStep(s, t, e).txs[t].phase)
    case GiveUp(t) => s.txs[t].(phase := Aborted)
  }

  lemma DecideCoord(s: System, t: TxId, e: Epoch)
    requires t in s.txs
    ensures var s' := DecideStep(s, t, e);
            t in s'.txs && s'.txs == s.txs[t := s.txs[t].(phase := s'.txs[t].phase)] && s'.base == s.base
    ensures s.txs[t].phase.Preparing? ==> !DecideStep(s, t, e).txs[t].phase.Running?
  {
    hide LeasesCover, Commits, Decisions.TryCommit;
    if LeasesCover(s.txs[t].votes, e) && !Commits(s, t, e) { SameCoord(s.txs, t); }
  }

  lemma CoordStep(s: System, a: Action)
    requires Enabled(s, a) && !AtLeader(a) && !a.RangeCommit?
    ensures Apply(s, a).txs == s.txs[a.t := CoordAfter(s, a)] && Apply(s, a).base == s.base
  {
    hide Enabled, TakeReply, Asked, Request, Prepare, Asking, SetPart, DecideStep, Overlays.BufferPut,
         Overlays.BufferDel, Decisions.Start, Records.Get;
    if a.Decide? { DecideEnabled(s, a); DecideCoord(s, a.t, a.e); }
  }

  lemma DecideEnabled(s: System, a: Action)
    requires Enabled(s, a) && a.Decide?
    ensures Is(s, a.t, Preparing)
  {
  }

  lemma ServerStep(s: System, a: Action)
    requires Enabled(s, a) && (AtLeader(a) || a.RangeCommit?)
    ensures Apply(s, a).txs == s.txs && Apply(s, a).base == s.base
  {
    hide Commit, CommitLogFailure, Written;
    if AtLeader(a) { LeaderStepFrame(s, a); }
  }

  /** Steps of other transactions, and of servers. */
  lemma OtherTx(s: System, a: Action, t: TxId)
    requires Enabled(s, a) && (AtLeader(a) || a.RangeCommit? || a.t != t)
    ensures var s' := Apply(s, a); (t in s'.txs <==> t in s.txs) && (t in s.txs ==> s'.txs[t] == s.txs[t])
  {
    hide Enabled, Apply, CoordAfter;
    if AtLeader(a) || a.RangeCommit? { ServerStep(s, a); } else { CoordStep(s, a); }
  }

  lemma OwnStep(s: System, a: Action, t: TxId, r: RangeId)
    requires Enabled(s, a) && !AtLeader(a) && !a.RangeCommit? && a.t == t
    ensures var s' := Apply(s, a);
            && t in s'.txs && (Is(s, t, Aborted) ==> Is(s', t, Aborted))
            && (Is(s', t, Aborted) || PartAt(s', t, r).seen == PartAt(s, t, r).seen + ReadOf(s, a, t, r))
  {
    CoordStep(s, a);
    hide Apply, DecideStep, VoteOf, Overlays.Enumerates, Overlays.Buffered, IsCommitEpoch, Records.Get, Holds;
  }

  lemma StepReads(s: System, a: Action, t: TxId, r: RangeId)
    requires Enabled(s, a)
    ensures var s' := Apply(s, a);
            && (t in s.txs ==> t in s'.txs) && (Is(s, t, Aborted) ==> Is(s', t, Aborted))
            && (Is(s', t, Aborted) || PartAt(s', t, r).seen == PartAt(s, t, r).seen + ReadOf(s, a, t, r))
  {
    hide Enabled, Apply;
    if AtLeader(a) || a.RangeCommit? || a.t != t { OtherTx(s, a, t); } else { OwnStep(s, a, t, r); }
  }

  lemma {:induction false} RunReads(s: System, acts: seq<Action>, t: TxId, r: RangeId)
    requires IsRun(s, acts)
    ensures var s' := After(s, acts);
            && (t in s.txs ==> t in s'.txs) && (Is(s, t, Aborted) ==> Is(s', t, Aborted))
            && (Is(s', t, Aborted) || PartAt(s', t, r).seen == PartAt(s, t, r).seen + ReadsIn(s, acts, t, r))
    decreases |acts|
  {
    hide Enabled, Apply, ReadOf, PartAt;
    if acts != [] {
      StepReads(s, acts[0], t, r);
      RunReads(Apply(s, acts[0]), acts[1..], t, r);
    }
  }

  /**
   * Over every run: a transaction that is not aborted has on record exactly the gets it was answered, all of
   * them and with the values storage had at that moment.
   */
  lemma ReadsAreRecorded(s: System, acts: seq<Action>, t: TxId, r: RangeId)
    requires Initial(s) && IsRun(s, acts) && t in After(s, acts).txs && !After(s, acts).txs[t].phase.Aborted?
    ensures Overlays.PartOf(After(s, acts).txs[t].parts, r).seen == ReadsIn(s, acts, t, r)
  {
    RunReads(s, acts, t, r);
    assert PartAt(s, t, r).seen == {};
  }

  // ---------------------------------------------------------------- writes

  /** The puts and deletes of the transaction, in the order of the run. */
  function OpsIn(acts: seq<Action>, t: TxId): seq<Overlays.Op>
    decreases |acts|
  {
    if acts == [] then []
    else OpsOf(acts[0], t) + OpsIn(acts[1..], t)
  }

  function OpsOf(a: Action, t: TxId): seq<Overlays.Op> {
    match a
    case DoPut(u, r, k, v) => if u == t then [Overlays.OpPut(r, k, v)] else []
    case DoDel(u, r, k) => if u == t then [Overlays.OpDel(r, k)] else []
    case _ => []
  }

  /** Through the transaction's buffers one database reads as the other. */
  ghost predicate Shows(s: System, t: TxId, db: Overlays.Database, db': Overlays.Database) {
    forall r, k :: ShowsAt(PartAt(s, t, r), r, k, db, db')
  }

  ghost predicate ShowsAt(p: Overlays.Participant, r: RangeId, k: Bytes, db: Overlays.Database,
      db': Overlays.Database) {
    Overlays.ReadThrough(p, k, Overlays.ValueIn(db, r, k)) == Overlays.ValueIn(db', r, k)
  }

  /** Steps that are neither put nor delete leave the buffers alone. */
  lemma QuietBuffers(s: System, a: Action, t: TxId, r: RangeId)
    requires Enabled(s, a) && !AtLeader(a) && !a.RangeCommit? && a.t == t && !a.DoPut? && !a.DoDel?
    ensures var p, p' := PartAt(s, t, r), PartAt(Apply(s, a), t, r);
            p'.writeset == p.writeset && p'.deleteset == p.deleteset
  {
    CoordStep(s, a);
    hide Apply, DecideStep, VoteOf, Overlays.Enumerates, Overlays.Buffered, IsCommitEpoch, Records.Get, Holds;
  }

  lemma SameBuffers(s: System, s': System, t: TxId, db: Overlays.Database, db': Overlays.Database)
    requires Shows(s, t, db, db')
    requires forall r :: PartAt(s', t, r).writeset == PartAt(s, t, r).writeset
                         && PartAt(s', t, r).deleteset == PartAt(s, t, r).deleteset
    ensures Shows(s', t, db, db')
  {
    hide PartAt;
    forall r, k ensures ShowsAt(PartAt(s', t, r), r, k, db, db') { assert ShowsAt(PartAt(s, t, r), r, k, db, db'); }
  }

  lemma WriteShows(s: System, a: Action, t: TxId, db: Overlays.Database, db': Overlays.Database)
    requires Enabled(s, a) && Shows(s, t, db, db') && (a.DoPut? || a.DoDel?) && a.t == t
    ensures |OpsOf(a, t)| == 1 && Shows(Apply(s, a), t, db, Overlays.Exec(db', OpsOf(a, t)[0]))
  {
    CoordStep(s, a);
    hide Apply;
    var s', db'' := Apply(s, a), Overlays.Exec(db', OpsOf(a, t)[0]);
    forall r, k ensures ShowsAt(PartAt(s', t, r), r, k, db, db'') {
      assert ShowsAt(PartAt(s, t, r), r, k, db, db');
    }
  }

  lemma StepShows(s: System, a: Action, t: TxId, db: Overlays.Database, db': Overlays.Database)
    requires Enabled(s, a) && Shows(s, t, db, db')
    ensures Shows(Apply(s, a), t, db, Overlays.ExecAll(db', OpsOf(a, t)))
  {
    hide Shows;
    if AtLeader(a) || a.RangeCommit? || a.t != t {
      OtherTx(s, a, t);
      hide Enabled, Apply;
      SameBuffers(s, Apply(s, a), t, db, db');
    } else if a.DoPut? || a.DoDel? {
      hide Enabled, Apply, Overlays.Exec;
      WriteShows(s, a, t, db, db');
      assert OpsOf(a, t)[..0] == [] && Overlays.ExecAll(db', OpsOf(a, t)) == Overlays.Exec(db', OpsOf(a, t)[0]);
    } else {
      hide Enabled, Apply;
      forall r
        ensures PartAt(Apply(s, a), t, r).writeset == PartAt(s, t, r).writeset
                && PartAt(Apply(s, a), t, r).deleteset == PartAt(s, t, r).deleteset
      {
        QuietBuffers(s, a, t, r);
      }
      SameBuffers(s, Apply(s, a), t, db, db');
    }
  }

  lemma {:induction false} ExecConcat(db: Overlays.Database, a: seq<Overlays.Op>, b: seq<Overlays.Op>)
    ensures Overlays.ExecAll(db, a + b) == Overlays.ExecAll(Overlays.ExecAll(db, a), b)
    decreases |b|
  {
    if b == [] {
      assert a + b == a;
    } else {
      var n := |b| - 1;
      ExecConcat(db, a, b[..n]);
      assert (a + b)[..|a| + n] == a + b[..n] && (a + b)[|a| + n] == b[n];
    }
  }

  lemma {:induction false} RunShows(s: System, acts: seq<Action>, t: TxId, db: Overlays.Database,
      db': Overlays.Database)
    requires IsRun(s, acts) && Shows(s, t, db, db')
    ensures Shows(After(s, acts), t, db, Overlays.ExecAll(db', OpsIn(acts, t)))
    decreases |acts|
  {
    hide Enabled, Apply, Shows, OpsOf;
    if acts != [] {
      StepShows(s, acts[0], t, db, db');
      RunShows(Apply(s, acts[0]), acts[1..], t, db, Overlays.ExecAll(db', OpsOf(acts[0], t)));
      ExecConcat(db', OpsOf(acts[0], t), OpsIn(acts[1..], t));
    }
  }

  /**
   * Over every run: what a transaction has buffered is what its puts and deletes, executed one by one on any
   * database, would make of that database.
   */
  lemma BuffersAreOperations(s: System, acts: seq<Action>, t: TxId, r: RangeId, k: Bytes, db: Overlays.Database)
    requires Initial(s) && IsRun(s, acts) && t in After(s, acts).txs
    ensures Overlays.ReadThrough(Overlays.PartOf(After(s, acts).txs[t].parts, r), k, Overlays.ValueIn(db, r, k)) ==
            Overlays.ValueIn(Overlays.ExecAll(db, OpsIn(acts, t)), r, k)
  {
    assert Shows(s, t, db, db);
    RunShows(s, acts, t, db, db);
    assert ShowsAt(PartAt(After(s, acts), t, r), r, k, db, Overlays.ExecAll(db, OpsIn(acts, t)));
  }

  // ---------------------------------------------------------------- serializability of what was asked and answered

  /** The operations of the listed transactions, one transaction after the other. */
  function SerialOps(acts: seq<Action>, h: seq<Entry>): seq<Overlays.Op>
    decreases |h|
  {
    if h == [] then [] else SerialOps(acts, h[..|h| - 1]) + OpsIn(acts, h[|h| - 1].id)
  }

  lemma {:induction false} SerialValue(s: System, acts: seq<Action>, h: seq<Entry>, r: RangeId, k: Bytes,
                                       b: Records.Table, db: Overlays.Database)
    requires Initial(s) && IsRun(s, acts) && Records.Get(b, k) == Overlays.ValueIn(db, r, k)
    requires forall i :: 0 <= i < |h| ==>
               h[i].id in After(s, acts).txs && After(s, acts).txs[h[i].id].parts == h[i].parts
    ensures ValueAfter(b, h, r, k) == Overlays.ValueIn(Overlays.ExecAll(db, SerialOps(acts, h)), r, k)
    decreases |h|
  {
    hide Initial, IsRun, After, OpsIn, Records.Get;
    if h != [] {
      var init, last := h[..|h| - 1], h[|h| - 1];
      SerialValue(s, acts, init, r, k, b, db);
      var before := Overlays.ExecAll(db, SerialOps(acts, init));
      BuffersAreOperations(s, acts, last.id, r, k, before);
      ExecConcat(db, SerialOps(acts, init), OpsIn(acts, last.id));
      hide Overlays.ExecAll, Overlays.ValueIn;
    }
  }

  lemma {:induction false} AnswerIsRead(s: System, acts: seq<Action>, n: nat)
    requires IsRun(s, acts) && n < |acts| && acts[n].FinishGet?
    ensures IsRun(s, acts[..n]) && acts[n].r in After(s, acts[..n]).stores
    ensures (acts[n].k, Records.Get(After(s, acts[..n]).stores[acts[n].r].table, acts[n].k))
            in ReadsIn(s, acts, acts[n].t, acts[n].r)
    decreases |acts|
  {
    hide Apply;
    if n == 0 {
      assert acts[..0] == [];
    } else {
      var rest := acts[1..];
      assert rest[n - 1] == acts[n] && rest[..n - 1] == acts[..n][1..] && acts[..n][0] == acts[0];
      hide Enabled;
      AnswerIsRead(Apply(s, acts[0]), rest, n - 1);
    }
  }

  lemma StepBase(s: System, a: Action)
    requires Enabled(s, a)
    ensures Apply(s, a).base == s.base
  {
    hide Enabled, Apply, CoordAfter;
    if AtLeader(a) || a.RangeCommit? { ServerStep(s, a); } else { CoordStep(s, a); }
  }

  lemma {:induction false} BaseStays(s: System, acts: seq<Action>)
    requires IsRun(s, acts)
    ensures After(s, acts).base == s.base
    decreases |acts|
  {
    hide Enabled, Apply;
    if acts != [] {
      StepBase(s, acts[0]);
      BaseStays(Apply(s, acts[0]), acts[1..]);
    }
  }

  /** A committed transaction's recorded reads fit what was decided before it. */
  lemma RecordedFits(s: System, acts: seq<Action>, i: nat, r: RangeId, x: (Bytes, Option<Bytes>))
    requires Initial(s) && IsSafeRun(s, acts) && IsRun(s, acts) && i < |After(s, acts).history| && r in s.base
    requires x in ReadsIn(s, acts, After(s, acts).history[i].id, r)
    ensures x.1 == ValueAfter(s.base[r], After(s, acts).history[..i], r, x.0)
  {
    hide Weak, ValueAfter, ReadsIn;
    InitialWeak(s);
    RunWeak(s, acts);
    BaseStays(s, acts);
    SafeRunsAreSerializable(s, acts);
    var s' := After(s, acts);
    hide IsRun, IsSafeRun, After;
    ProtocolOrder.HistoryCommitted(s', i);
    ReadsAreRecorded(s, acts, s'.history[i].id, r);
    hide Initial;
    assert ReadsFit(s'.base, s'.history, i);
  }

  lemma HistoryParts(s: System, acts: seq<Action>)
    requires Initial(s) && IsRun(s, acts)
    ensures var s' := After(s, acts);
            forall i :: 0 <= i < |s'.history| ==>
              s'.history[i].id in s'.txs && s'.txs[s'.history[i].id].parts == s'.history[i].parts
  {
    hide Weak;
    InitialWeak(s);
    RunWeak(s, acts);
    var s' := After(s, acts);
    hide IsRun, After, Initial;
    forall i | 0 <= i < |s'.history|
      ensures s'.history[i].id in s'.txs && s'.txs[s'.history[i].id].parts == s'.history[i].parts
    {
      ProtocolOrder.HistoryCommitted(s', i);
    }
  }

  /**
   * Serializability in terms of the run alone: in a run without harm, every get answered to a transaction that
   * commits was answered with what executing, one transaction after the other, the operations of those
   * decided before it leaves in the database the system started from.
   */
  lemma EveryAnswerFits(s: System, acts: seq<Action>, n: nat, i: nat, db: Overlays.Database)
    requires Initial(s) && IsSafeRun(s, acts) && IsRun(s, acts) && n < |acts| && acts[n].FinishGet?
    requires i < |After(s, acts).history| && After(s, acts).history[i].id == acts[n].t
    requires acts[n].r in s.base
    requires Records.Get(s.base[acts[n].r], acts[n].k) == Overlays.ValueIn(db, acts[n].r, acts[n].k)
    ensures IsRun(s, acts[..n]) && acts[n].r in After(s, acts[..n]).stores
    ensures Records.Get(After(s, acts[..n]).stores[acts[n].r].table, acts[n].k) ==
            Overlays.ValueIn(Overlays.ExecAll(db, SerialOps(acts, After(s, acts).history[..i])), acts[n].r, acts[n].k)
  {
    hide ReadsIn, ValueAfter, Records.Get;
    var s', r, k := After(s, acts), acts[n].r, acts[n].k;
    AnswerIsRead(s, acts, n);
    HistoryParts(s, acts);
    hide IsRun, IsSafeRun, After, Initial;
    RecordedFits(s, acts, i, r, (k, Records.Get(After(s, acts[..n]).stores[r].table, k)));
    SerialValue(s, acts, s'.history[..i], r, k, s.base[r], db);
  }

  /**
   * And a range at whose serving leader nothing is due has in storage what executing the operations of all
   * committed transactions, in decision order, leaves.
   */
  lemma RangesReadSerially(s: System, acts: seq<Action>, r: RangeId, k: Bytes, db: Overlays.Database)
    requires Initial(s) && IsSafeRun(s, acts) && IsRun(s, acts) && r in After(s, acts).stores
    requires r in s.base && Records.Get(s.base[r], k) == Overlays.ValueIn(db, r, k)
    requires ServingPlace(After(s, acts), r) in After(s, acts).places && Due(After(s, acts), r) == None
    ensures Records.Get(After(s, acts).stores[r].table, k) ==
            Overlays.ValueIn(Overlays.ExecAll(db, SerialOps(acts, After(s, acts).history)), r, k)
  {
    hide ValueAfter, Records.Get, Due;
    SafeRunsAreSerializable(s, acts);
    BaseStays(s, acts);
    HistoryParts(s, acts);
    var s' := After(s, acts);
    hide IsRun, IsSafeRun, After, Initial;
    SerialValue(s, acts, s'.history, r, k, s.base[r], db);
  }
}
