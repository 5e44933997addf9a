/**
 * The prefetching buffer of a server, shared by its ranges (rangeserver/src/prefetching_buffer.rs): what each call
 * does to it.
 */
module Prefetching {
  import opened Base

  datatype KeyState = Fetched | Loading(n: nat) | Requested(n: nat)

  datatype Buffer = Buffer(
    store: map<Bytes, Bytes>,
    states: map<Bytes, KeyState>,
    txKeys: map<TxId, set<Bytes>>,
    keyTxs: map<Bytes, set<TxId>>,
    seqNo: nat)

  const EMPTY: Buffer := Buffer(map[], map[], map[], map[], 0)

  function KeysOf(b: Buffer, t: TxId): set<Bytes> {
    if t in b.txKeys then b.txKeys[t] else {}
  }

  function TxsOf(b: Buffer, k: Bytes): set<TxId> {
    if k in b.keyTxs then b.keyTxs[k] else {}
  }

  function Find(m: map<Bytes, Bytes>, k: Bytes): Option<Bytes> {
    if k in m then Some(m[k]) else None
  }

  /** The state a request finds: a key nobody asked for gets the next fetch number. */
  function StateFor(b: Buffer, k: Bytes): KeyState {
    if k in b.states then b.states[k] else Requested(b.seqNo + 1)
  }

  /** A request is recorded both ways; a key waiting to be fetched starts loading. */
  function Request(b: Buffer, t: TxId, k: Bytes): Buffer {
    var state := StateFor(b, k);
    Buffer(b.store,
           b.states[k := if state.Requested? then Loading(state.n) else state],
           b.txKeys[t := KeysOf(b, t) + {k}],
           b.keyTxs[k := TxsOf(b, k) + {t}],
           if k in b.states then b.seqNo else b.seqNo + 1)
  }

  predicate IsLoading(b: Buffer, k: Bytes, n: nat) {
    k in b.states && b.states[k] == Loading(n)
  }

  function FetchComplete(b: Buffer, k: Bytes, val: Option<Bytes>, n: nat): Buffer {
    if !IsLoading(b, k, n) then b
    else b.(states := b.states[k := Fetched],
            store := if val.Some? then b.store[k := val.value] else b.store)
  }

  function FetchFailed(b: Buffer, k: Bytes, n: nat): Buffer {
    if IsLoading(b, k, n) then b.(states := b.states[k := Requested(n)]) else b
  }

  function Settled(state: KeyState): KeyState {
    if state.Loading? then Fetched else state
  }

  /** A committed write or delete of a key somebody asked for; a pending fetch of it becomes obsolete. */
  function Update(b: Buffer, k: Bytes, val: Option<Bytes>): Buffer {
    if k !in b.states then b
    else b.(store := if val.Some? then b.store[k := val.value] else b.store - {k},
            states := b.states[k := Settled(b.states[k])])
  }

  /** The keys that nobody asks for any more once t is complete. */
  function Dropped(b: Buffer, t: TxId): set<Bytes> {
    set k | k in KeysOf(b, t) && TxsOf(b, k) - {t} == {}
  }

  function Complete(b: Buffer, t: TxId): Buffer {
    var gone := Dropped(b, t);
    Buffer(b.store - gone,
           b.states - gone,
           b.txKeys - {t},
           map k | k in b.keyTxs && k !in gone :: if k in KeysOf(b, t) then b.keyTxs[k] - {t} else b.keyTxs[k],
           b.seqNo)
  }

  datatype Lookup = Hit(val: Bytes) | Miss | Broken

  /** A fetched key without a value is reported as an error, not as absent. */
  function GetFromBuffer(b: Buffer, k: Bytes): Lookup {
    if k in b.states && b.states[k].Fetched? then (if k in b.store then Hit(b.store[k]) else Broken)
    else Miss
  }

  // ---------------------------------------------------------------- bookkeeping

  /** A waiter puts the key back to loading under its number, whether or not the key is still there. */
  function Reload(b: Buffer, k: Bytes, n: nat): Buffer {
    b.(states := b.states[k := Loading(n)])
  }

  /** The two request maps are inverse to each other, without empty sets; every requested key has a state. */
  ghost predicate Counted(b: Buffer) {
    && (forall t, k :: t in b.txKeys && k in b.txKeys[t] ==> k in b.keyTxs && t in b.keyTxs[k])
    && (forall k, t :: k in b.keyTxs && t in b.keyTxs[k] ==> t in b.txKeys && k in b.txKeys[t])
    && (forall t :: t in b.txKeys ==> b.txKeys[t] != {})
    && (forall k :: k in b.keyTxs ==> b.keyTxs[k] != {})
    && b.keyTxs.Keys <= b.states.Keys
    && b.store.Keys <= b.states.Keys
  }

  /** The keys with a state that nobody asks for. */
  function Orphans(b: Buffer): set<Bytes> {
    b.states.Keys - b.keyTxs.Keys
  }

  /** States exist exactly for requested keys. */
  ghost predicate Exact(b: Buffer) {
    Counted(b) && Orphans(b) == {}
  }

  /** A request keeps the counts and adopts an orphan. */
  lemma RequestExact(b: Buffer, t: TxId, k: Bytes)
    requires Counted(b)
    ensures Counted(Request(b, t, k)) && Orphans(Request(b, t, k)) == Orphans(b) - {k}
  {
    assert Request(b, t, k).keyTxs.Keys == b.keyTxs.Keys + {k};
  }

  lemma CompletedFetchExact(b: Buffer, k: Bytes, val: Option<Bytes>, n: nat)
    requires Counted(b)
    ensures Counted(FetchComplete(b, k, val, n)) && Orphans(FetchComplete(b, k, val, n)) == Orphans(b)
  {
  }

  lemma FailedFetchExact(b: Buffer, k: Bytes, n: nat)
    requires Counted(b)
    ensures Counted(FetchFailed(b, k, n)) && Orphans(FetchFailed(b, k, n)) == Orphans(b)
  {
  }

  lemma UpdateExact(b: Buffer, k: Bytes, val: Option<Bytes>)
    requires Counted(b)
    ensures Counted(Update(b, k, val)) && Orphans(Update(b, k, val)) == Orphans(b)
  {
  }

  /** Fetches and updates keep the counts and the orphans. */
  lemma FetchExact(b: Buffer, k: Bytes, val: Option<Bytes>, n: nat)
    requires Counted(b)
    ensures Counted(FetchComplete(b, k, val, n)) && Counted(FetchFailed(b, k, n)) && Counted(Update(b, k, val))
    ensures Orphans(FetchComplete(b, k, val, n)) == Orphans(FetchFailed(b, k, n)) == Orphans(Update(b, k, val)) ==
              Orphans(b)
  {
    hide Counted, FetchComplete, FetchFailed, Update, Orphans;
    CompletedFetchExact(b, k, val, n);
    FailedFetchExact(b, k, n);
    UpdateExact(b, k, val);
  }

  /** Putting a key back to loading makes an orphan of it if and only if it is gone. */
  lemma ReloadOrphans(b: Buffer, k: Bytes, n: nat)
    requires Counted(b)
    ensures Counted(Reload(b, k, n)) && Orphans(Reload(b, k, n)) == Orphans(b) + (if k in b.states then {} else {k})
  {
  }

  /** Completing a transaction keeps the counts and the orphans, and the transaction occurs nowhere any more. */
  lemma CompleteExact(b: Buffer, t: TxId)
    requires Counted(b)
    ensures Counted(Complete(b, t)) && Orphans(Complete(b, t)) == Orphans(b)
    ensures t !in Complete(b, t).txKeys && forall k :: k in Complete(b, t).keyTxs ==> t !in Complete(b, t).keyTxs[k]
  {
    var b' := Complete(b, t);
    forall k | k in b'.keyTxs ensures b'.keyTxs[k] != {} {
      assert k in KeysOf(b, t) ==> TxsOf(b, k) - {t} != {};
    }
    assert Dropped(b, t) <= b.keyTxs.Keys && b'.keyTxs.Keys == b.keyTxs.Keys - Dropped(b, t);
    assert b'.states.Keys == b.states.Keys - Dropped(b, t);
    SameRest(b.states.Keys, b.keyTxs.Keys, Dropped(b, t));
  }

  lemma SameRest(a: set<Bytes>, b: set<Bytes>, c: set<Bytes>)
    requires c <= b
    ensures (a - c) - (b - c) == a - b
  {
  }

  lemma CompleteKeeps(b: Buffer, t: TxId, k: Bytes)
    requires Counted(b) && k in Orphans(b)
    ensures k in Complete(b, t).states && Complete(b, t).states[k] == b.states[k]
    ensures Find(Complete(b, t).store, k) == Find(b.store, k)
  {
  }

  /** Completing transactions one by one, whatever else they asked for. */
  function CompleteAll(b: Buffer, ts: seq<TxId>): Buffer
    decreases |ts|
  {
    if ts == [] then b else CompleteAll(Complete(b, ts[0]), ts[1..])
  }

  /** What nobody asks for. */
  function Rest(b: Buffer): Buffer {
    Buffer(map k | k in b.store && k in Orphans(b) :: b.store[k], map k | k in Orphans(b) :: b.states[k], map[], map[],
           b.seqNo)
  }

  lemma NothingElse(b: Buffer)
    requires Counted(b) && b.txKeys == map[]
    ensures b == Rest(b)
  {
    forall k ensures k !in b.keyTxs {
      assert k in b.keyTxs ==> exists t :: t in b.keyTxs[k] && t in b.txKeys;
    }
    assert Orphans(b) == b.states.Keys;
  }

  lemma RestStays(b: Buffer, t: TxId)
    requires Counted(b)
    ensures Rest(Complete(b, t)) == Rest(b)
  {
    CompleteExact(b, t);
    var b' := Complete(b, t);
    forall k | k in Orphans(b)
      ensures k in b'.states && b'.states[k] == b.states[k] && Find(b'.store, k) == Find(b.store, k)
    {
      CompleteKeeps(b, t, k);
    }
    hide Complete, Counted, Orphans;
  }

  /** Once every transaction has completed, in any order, the orphans with their values are left, and nothing else. */
  lemma {:induction false} AllCompleteLeaves(b: Buffer, ts: seq<TxId>)
    requires Counted(b) && forall t :: t in b.txKeys ==> t in ts
    ensures CompleteAll(b, ts) == Rest(b)
    decreases |ts|
  {
    if ts == [] {
      assert b.txKeys == map[];
      NothingElse(b);
    } else {
      CompleteExact(b, ts[0]);
      RestStays(b, ts[0]);
      hide Rest;
      AllCompleteLeaves(Complete(b, ts[0]), ts[1..]);
    }
  }

  /** Nothing at all is left behind if and only if there are no orphans. */
  lemma AllCompleteEmpties(b: Buffer, ts: seq<TxId>)
    requires Counted(b) && forall t :: t in b.txKeys ==> t in ts
    ensures CompleteAll(b, ts) == EMPTY.(seqNo := b.seqNo) <==> Exact(b)
  {
    AllCompleteLeaves(b, ts);
    hide Counted;
    if k :| k in Orphans(b) {
      assert k in Rest(b).states;
    } else {
      assert Rest(b).store == map[] && Rest(b).states == map[];
    }
  }
}

/** The buffer object, behind one mutex. */
module PrefetchingBuffers {
  import opened Base
  import Prefetching

  class PrefetchingBuffer {
    var prefetchStore: map<Bytes, Bytes>
    var keyState: map<Bytes, Prefetching.KeyState>
    var transactionKeys: map<TxId, set<Bytes>>
    var keyTransactions: map<Bytes, set<TxId>>
    var fetchSequenceNumber: nat

    ghost function View(): Prefetching.Buffer
      reads this
    {
      Prefetching.Buffer(prefetchStore, keyState, transactionKeys, keyTransactions, fetchSequenceNumber)
    }

    constructor ()
      ensures View() == Prefetching.EMPTY
    {
      prefetchStore := map[];
      keyState := map[];
      transactionKeys := map[];
      keyTransactions := map[];
      fetchSequenceNumber := 0;
    }

    method GetFromBuffer(key: Bytes) returns (res: Prefetching.Lookup)
      ensures res == Prefetching.GetFromBuffer(View(), key)
    {
      if key in keyState && keyState[key].Fetched? {
        if key in prefetchStore {
          res := Prefetching.Hit(prefetchStore[key]);
        } else {
          res := Prefetching.Broken;
        }
      } else {
        res := Prefetching.Miss;
      }
    }

    /** Returns the state found; Requested(n) tells the caller to fetch the key under number n. */
    method ProcessPrefetchRequest(t: TxId, key: Bytes) returns (found: Prefetching.KeyState)
      modifies this
      ensures found == Prefetching.StateFor(old(View()), key)
      ensures View() == Prefetching.Request(old(View()), t, key)
    {
      var keys := if t in transactionKeys then transactionKeys[t] else {};
      transactionKeys := transactionKeys[t := keys + {key}];
      var txs := if key in keyTransactions then keyTransactions[key] else {};
      keyTransactions := keyTransactions[key := txs + {t}];
      if key !in keyState {
        fetchSequenceNumber := fetchSequenceNumber + 1;
        keyState := keyState[key := Prefetching.Requested(fetchSequenceNumber)];
      }
      found := keyState[key];
      if found.Requested? {
        keyState := keyState[key := Prefetching.Loading(found.n)];
      }
    }

    /**
     * What a waiter told of a failed fetch does to its key: the state is written before it is known whether
     * the key was still there, and the caller cannot go on if it was not.
     */
    method ChangeKeystateToLoading(key: Bytes, n: nat) returns (ok: bool)
      modifies this
      ensures View() == Prefetching.Reload(old(View()), key, n)
      ensures ok <==> key in old(keyState)
    {
      ok := key in keyState;
      keyState := keyState[key := Prefetching.Loading(n)];
    }

    /** Only the fetch whose number is the one being loaded has any effect. */
    method FetchComplete(key: Bytes, value: Option<Bytes>, n: nat)
      modifies this
      ensures View() == Prefetching.FetchComplete(old(View()), key, value, n)
      ensures !old(Prefetching.IsLoading(View(), key, n)) ==> View() == old(View())
    {
      if key in keyState && keyState[key].Loading? && keyState[key].n == n {
        if value.Some? {
          prefetchStore := prefetchStore[key := value.value];
        }
        keyState := keyState[key := Prefetching.Fetched];
      }
    }

    method FetchFailed(key: Bytes, n: nat)
      modifies this
      ensures View() == Prefetching.FetchFailed(old(View()), key, n)
      ensures !old(Prefetching.IsLoading(View(), key, n)) ==> View() == old(View())
    {
      if key in keyState && keyState[key].Loading? && keyState[key].n == n {
        keyState := keyState[key := Prefetching.Requested(n)];
      }
    }

    method Upsert(key: Bytes, value: Bytes)
      modifies this
      ensures View() == Prefetching.Update(old(View()), key, Some(value))
    {
      if key in keyState {
        prefetchStore := prefetchStore[key := value];
        if keyState[key].Loading? {
          keyState := keyState[key := Prefetching.Fetched];
        }
      }
    }

    method Delete(key: Bytes)
      modifies this
      ensures View() == Prefetching.Update(old(View()), key, None)
    {
      if key in keyState {
        prefetchStore := prefetchStore - {key};
        if keyState[key].Loading? {
          keyState := keyState[key := Prefetching.Fetched];
        }
      }
    }

    /** Forgets the transaction key by key, in any order, evicting the keys nobody else asked for. */
    method ProcessTransactionComplete(t: TxId)
      modifies this
      ensures View() == Prefetching.Complete(old(View()), t)
    {
      ghost var b := View();
      var keys := if t in transactionKeys then transactionKeys[t] else {};
      var todo := keys;
      PartialNone(b, t);
      while todo != {}
        invariant todo <= keys
        invariant View() == Partial(b, t, keys - todo)
        decreases todo
      {
        var key :| key in todo;
        PartialStep(b, t, keys - todo, key);
        assert keys - (todo - {key}) == keys - todo + {key};
        ForgetKey(t, key);
        todo := todo - {key};
      }
      assert keys - todo == keys;
      PartialAll(b, t);
      transactionKeys := transactionKeys - {t};
    }

    method ForgetKey(t: TxId, key: Bytes)
      modifies this
      ensures View() == Forget(old(View()), t, key)
    {
      if key in keyTransactions {
        var left := keyTransactions[key] - {t};
        keyTransactions := if left == {} then keyTransactions - {key} else keyTransactions[key := left];
      }
      if key !in keyTransactions {
        prefetchStore := prefetchStore - {key};
        keyState := keyState - {key};
      }
    }
  }

  function WithoutTx(m: map<Bytes, set<TxId>>, t: TxId, k: Bytes): map<Bytes, set<TxId>> {
    if k !in m then m
    else if m[k] - {t} == {} then m - {k}
    else m[k := m[k] - {t}]
  }

  /** One key forgotten by one transaction. */
  function Forget(b: Prefetching.Buffer, t: TxId, k: Bytes): Prefetching.Buffer {
    var left := WithoutTx(b.keyTxs, t, k);
    b.(keyTxs := left,
       store := if k in left then b.store else b.store - {k},
       states := if k in left then b.states else b.states - {k})
  }

  function DroppedIn(b: Prefetching.Buffer, t: TxId, ks: set<Bytes>): set<Bytes> {
    set k | k in ks && Prefetching.TxsOf(b, k) - {t} == {}
  }

  /** The buffer after t has been taken out of the given keys. */
  ghost function Partial(b: Prefetching.Buffer, t: TxId, ks: set<Bytes>): Prefetching.Buffer {
    var gone := DroppedIn(b, t, ks);
    b.(store := b.store - gone,
       states := b.states - gone,
       keyTxs := map k | k in b.keyTxs && k !in gone :: if k in ks then b.keyTxs[k] - {t} else b.keyTxs[k])
  }

  lemma PartialNone(b: Prefetching.Buffer, t: TxId)
    ensures Partial(b, t, {}) == b
  {
  }

  lemma PartialAll(b: Prefetching.Buffer, t: TxId)
    ensures Partial(b, t, Prefetching.KeysOf(b, t)).(txKeys := b.txKeys - {t}) == Prefetching.Complete(b, t)
  {
    assert DroppedIn(b, t, Prefetching.KeysOf(b, t)) == Prefetching.Dropped(b, t);
  }

  lemma PartialStep(b: Prefetching.Buffer, t: TxId, ks: set<Bytes>, k: Bytes)
    requires k !in ks
    ensures Partial(b, t, ks + {k}) == Forget(Partial(b, t, ks), t, k)
  {
    var p, q := Partial(b, t, ks), Forget(Partial(b, t, ks), t, k);
    var gone := DroppedIn(b, t, ks);
    assert k !in gone;
    if Prefetching.TxsOf(b, k) - {t} == {} {
      assert DroppedIn(b, t, ks + {k}) == gone + {k};
    } else {
      assert DroppedIn(b, t, ks + {k}) == gone;
    }
    assert Partial(b, t, ks + {k}).keyTxs == q.keyTxs;
  }
}
