/** The one-row-per-transaction decision record (tx_state_store/src/storage/cassandra.rs). */
module Decisions {
  import opened Base

  datatype Status = Started | Committed(epoch: Epoch) | Aborted
  type Rows = map<TxId, Status>

  datatype OpResult = TransactionIsAborted | TransactionIsCommitted(epoch: Epoch)

  /** Insert 'started' if the row does not exist. */
  function Start(rows: Rows, t: TxId): Rows {
    if t in rows then rows else rows[t := Started]
  }

  /** Set 'committed' and the epoch if the status is 'started' or 'committed'. */
  function TryCommit(rows: Rows, t: TxId, e: Epoch): (Rows, OpResult) {
    if t in rows && !rows[t].Aborted? then (rows[t := Committed(e)], TransactionIsCommitted(e))
    else (rows, TransactionIsAborted)
  }

  /** Set 'aborted' if the status is 'started' or 'aborted'; otherwise report what the row says. */
  function TryAbort(rows: Rows, t: TxId): (Rows, OpResult) {
    if t in rows && !rows[t].Committed? then (rows[t := Aborted], TransactionIsAborted)
    else if t in rows && rows[t].Committed? then (rows, TransactionIsCommitted(rows[t].epoch))
    else (rows, TransactionIsAborted)
  }

  // ---------------------------------------------------------------- whole runs

  datatype Op = OpStart(t: TxId) | OpCommit(t: TxId, e: Epoch) | OpAbort(t: TxId)

  function Step(rows: Rows, op: Op): Rows {
    match op
    case OpStart(t) => Start(rows, t)
    case OpCommit(t, e) => TryCommit(rows, t, e).0
    case OpAbort(t) => TryAbort(rows, t).0
  }

  function Run(rows: Rows, ops: seq<Op>): Rows
    decreases |ops|
  {
    if ops == [] then rows else Run(Step(rows, ops[0]), ops[1..])
  }

  /** The epoch named by the last commit request for t in the run. */
  function LastCommit(ops: seq<Op>, t: TxId): Option<Epoch>
    decreases |ops|
  {
    if ops == [] then None
    else if LastCommit(ops[1..], t).Some? then LastCommit(ops[1..], t)
    else if ops[0].OpCommit? && ops[0].t == t then Some(ops[0].e)
    else None
  }

  /** An abort, once recorded, is final. */
  lemma {:induction false} AbortIsFinal(rows: Rows, ops: seq<Op>, t: TxId)
    requires t in rows && rows[t].Aborted?
    ensures t in Run(rows, ops) && Run(rows, ops)[t].Aborted?
    decreases |ops|
  {
    if ops != [] {
      AbortIsFinal(Step(rows, ops[0]), ops[1..], t);
    }
  }

  /**
   * A commit, once recorded, is never undone, but its epoch is overwritten by every later commit
   * request: the decision is unchanged if and only if the last commit request, if any, repeats its epoch.
   */
  lemma {:induction false} CommitIsFinal(rows: Rows, ops: seq<Op>, t: TxId, e: Epoch)
    requires t in rows && rows[t] == Committed(e)
    ensures t in Run(rows, ops) && Run(rows, ops)[t].Committed?
    ensures Run(rows, ops)[t] == Committed(e) <==> LastCommit(ops, t) == None || LastCommit(ops, t) == Some(e)
    decreases |ops|
  {
    CommittedEpoch(rows, ops, t, e);
  }

  lemma {:induction false} CommittedEpoch(rows: Rows, ops: seq<Op>, t: TxId, e: Epoch)
    requires t in rows && rows[t] == Committed(e)
    ensures t in Run(rows, ops)
    ensures Run(rows, ops)[t] == match LastCommit(ops, t) case None => Committed(e) case Some(e') => Committed(e')
    decreases |ops|
  {
    if ops != [] {
      var rows1 := Step(rows, ops[0]);
      CommittedEpoch(rows1, ops[1..], t, rows1[t].epoch);
    }
  }

  /** A transaction that was never started is presumed aborted: nothing but a start creates its row. */
  lemma {:induction false} PresumedAbort(rows: Rows, ops: seq<Op>, t: TxId, e: Epoch)
    requires t !in rows && OpStart(t) !in ops
    ensures TryCommit(Run(rows, ops), t, e).1 == TransactionIsAborted
    ensures TryAbort(Run(rows, ops), t).1 == TransactionIsAborted
    decreases |ops|
  {
    if ops != [] {
      assert ops[0] in ops;
      forall x | x in ops[1..] ensures x in ops { }
      PresumedAbort(Step(rows, ops[0]), ops[1..], t, e);
    }
  }

  predicate Decides(op: Op, t: TxId) {
    (op.OpCommit? || op.OpAbort?) && op.t == t
  }

  lemma {:induction false} RunSplit(rows: Rows, a: seq<Op>, b: seq<Op>)
    ensures Run(rows, a + b) == Run(Run(rows, a), b)
    decreases |a|
  {
    if a == [] {
      assert a + b == b;
    } else {
      assert (a + b)[1..] == a[1..] + b;
      RunSplit(Step(rows, a[0]), a[1..], b);
    }
  }

  lemma {:induction false} NoRow(rows: Rows, ops: seq<Op>, t: TxId)
    requires t !in rows && forall k :: 0 <= k < |ops| ==> ops[k] != OpStart(t)
    ensures t !in Run(rows, ops)
    decreases |ops|
  {
    if ops != [] { NoRow(Step(rows, ops[0]), ops[1..], t); }
  }

  lemma {:induction false} StaysStarted(rows: Rows, ops: seq<Op>, t: TxId)
    requires t in rows && rows[t].Started? && forall k :: 0 <= k < |ops| ==> !Decides(ops[k], t)
    ensures t in Run(rows, ops) && Run(rows, ops)[t].Started?
    decreases |ops|
  {
    if ops != [] { StaysStarted(Step(rows, ops[0]), ops[1..], t); }
  }

  /**
   * The first decision after the start wins, whatever else is asked before or after it: an abort makes the
   * transaction aborted; a commit makes it committed, at the epoch of the last commit request.
   */
  lemma FirstDecisionWins(rows: Rows, ops: seq<Op>, t: TxId, i: nat, j: nat)
    requires t !in rows && i < j < |ops| && ops[i] == OpStart(t) && Decides(ops[j], t)
    requires forall k :: 0 <= k < i ==> ops[k] != OpStart(t)
    requires forall k :: i < k < j ==> !Decides(ops[k], t)
    ensures t in Run(rows, ops)
    ensures ops[j].OpAbort? ==> Run(rows, ops)[t] == Aborted
    ensures ops[j].OpCommit? ==>
              LastCommit(ops[j..], t).Some? && Run(rows, ops)[t] == Committed(LastCommit(ops[j..], t).value)
  {
    var before, tail := ops[..i], ops[i..];
    assert before + tail == ops;
    RunSplit(rows, before, tail);
    NoRow(rows, before, t);
    assert tail[0] == ops[i] && tail[1..][j - i - 1..] == ops[j..];
    hide Run, LastCommit;
    DecisionWins(Step(Run(rows, before), ops[i]), tail[1..], t, j - i - 1);
    RunFirst(Run(rows, before), tail);
  }

  lemma RunFirst(rows: Rows, ops: seq<Op>)
    requires ops != []
    ensures Run(rows, ops) == Run(Step(rows, ops[0]), ops[1..])
  {
  }

  /** The same for a transaction that has been started. */
  lemma DecisionWins(rows: Rows, ops: seq<Op>, t: TxId, j: nat)
    requires t in rows && rows[t].Started? && j < |ops| && Decides(ops[j], t)
    requires forall k :: 0 <= k < j ==> !Decides(ops[k], t)
    ensures t in Run(rows, ops)
    ensures ops[j].OpAbort? ==> Run(rows, ops)[t] == Aborted
    ensures ops[j].OpCommit? ==>
              LastCommit(ops[j..], t).Some? && Run(rows, ops)[t] == Committed(LastCommit(ops[j..], t).value)
  {
    var between, rest := ops[..j], ops[j..];
    assert between + rest == ops && rest[0] == ops[j];
    RunSplit(rows, between, rest);
    StaysStarted(rows, between, t);
    var rows1 := Step(Run(rows, between), ops[j]);
    if ops[j].OpAbort? { AbortIsFinal(rows1, rest[1..], t); }
    else { CommittedEpoch(rows1, rest[1..], t, ops[j].e); }
    RunFirst(Run(rows, between), rest);
  }

  /** Whatever happens in between, an answer "aborted" and a later answer "committed" never contradict each other. */
  lemma AnswersAgree(rows: Rows, ops: seq<Op>, t: TxId, e: Epoch)
    requires t in rows
    ensures TryAbort(rows, t).1 == TransactionIsAborted ==>
              TryCommit(Run(TryAbort(rows, t).0, ops), t, e).1 == TransactionIsAborted
    ensures TryCommit(rows, t, e).1 == TransactionIsCommitted(e) && LastCommit(ops, t) == None ==>
              TryAbort(Run(TryCommit(rows, t, e).0, ops), t).1 == TransactionIsCommitted(e)
  {
    if TryAbort(rows, t).1 == TransactionIsAborted {
      AbortIsFinal(TryAbort(rows, t).0, ops, t);
    }
    if TryCommit(rows, t, e).1 == TransactionIsCommitted(e) {
      CommitIsFinal(TryCommit(rows, t, e).0, ops, t, e);
    }
  }
}

/** The decision store as the coordinator calls it. */
module TxStateStores {
  import opened Base
  import Decisions

  class TxStateStore {
    var rows: Decisions.Rows

    constructor ()
      ensures rows == map[]
    {
      rows := map[];
    }

    method StartTransaction(t: TxId)
      modifies this
      ensures rows == Decisions.Start(old(rows), t)
    {
      if t !in rows {
        rows := rows[t := Decisions.Started];
      }
    }

    method TryCommitTransaction(t: TxId, epoch: Epoch) returns (res: Decisions.OpResult)
      modifies this
      ensures (rows, res) == Decisions.TryCommit(old(rows), t, epoch)
      ensures res.TransactionIsCommitted? <==> t in rows && rows[t] == Decisions.Committed(epoch)
    {
      var applied := t in rows && (rows[t].Started? || rows[t].Committed?);
      if applied {
        rows := rows[t := Decisions.Committed(epoch)];
        res := Decisions.TransactionIsCommitted(epoch);
      } else {
        res := Decisions.TransactionIsAborted;
      }
    }

    method TryAbortTransaction(t: TxId) returns (res: Decisions.OpResult)
      modifies this
      ensures (rows, res) == Decisions.TryAbort(old(rows), t)
      ensures res.TransactionIsAborted? <==> t !in rows || rows[t].Aborted?
    {
      var applied := t in rows && (rows[t].Started? || rows[t].Aborted?);
      if applied {
        rows := rows[t := Decisions.Aborted];
        res := Decisions.TransactionIsAborted;
      } else if t in rows && rows[t].Committed? {
        res := Decisions.TransactionIsCommitted(rows[t].epoch);
      } else {
        res := Decisions.TransactionIsAborted;
      }
    }
  }
}
