/**
 * Fetches racing commits. One server has one buffer for all of its ranges, and the buffer knows keys but
 * not the range they belong to (rangeserver/src/server.rs). Storage reads, fetch completions, storage
 * writes and buffer updates are separate steps (rangeserver/src/range_manager/impl.rs, prefetch and
 * commit), and other servers may write the same storage.
 */
module PrefetchCoherence {
  import opened Base
  import opened Prefetching

  type Storage = map<(RangeId, Bytes), Bytes>

  /** A fetch of a key of a range under number n, and what it has read from storage, if it has. */
  datatype Fetch = Fetch(r: RangeId, k: Bytes, n: nat, got: Option<Option<Bytes>>)

  /** A request that found its key loading under number n; woken once it has been told that the fetch failed. */
  datatype Waiter = Waiter(r: RangeId, k: Bytes, n: nat, woken: bool)

  /**
   * `midway` has, per range, the key with its new value or deletion that a commit has written to storage
   * but not yet to the buffer; a range's lock admits one commit at a time. `failed` has the keys whose
   * watchers were last told of a failure. As history, `homes` has the ranges a key has been requested
   * under since it entered the buffer. Fetches and waiters are numbered from `next`.
   */
  datatype State = State(
    buf: Buffer,
    storage: Storage,
    fetches: map<nat, Fetch>,
    waiters: map<nat, Waiter>,
    midway: map<RangeId, (Bytes, Option<Bytes>)>,
    failed: set<Bytes>,
    homes: map<Bytes, set<RangeId>>,
    next: nat)

  datatype Action =
    | AskPrefetch(t: TxId, r: RangeId, k: Bytes)
    | Wake(i: nat)
    | ResumeWaiter(i: nat)
    | ReadStorage(i: nat)
    | FinishFetch(i: nat)
    | FailFetch(i: nat)
    | WriteStorage(r: RangeId, k: Bytes, val: Option<Bytes>)
    | UpdateBuffer(r: RangeId)
    | CompleteTx(t: TxId)
    | ForeignWrite(r: RangeId, k: Bytes, val: Option<Bytes>)

  predicate Enabled(s: State, a: Action) {
    match a
    case AskPrefetch(_, _, _) => true
    case Wake(i) => i in s.waiters && s.waiters[i].k in s.failed
    case ResumeWaiter(i) => i in s.waiters && s.waiters[i].woken
    case ReadStorage(i) => i in s.fetches && s.fetches[i].got.None?
    case FinishFetch(i) => i in s.fetches && s.fetches[i].got.Some?
    case FailFetch(i) => i in s.fetches
    case WriteStorage(r, _, _) => r !in s.midway
    case UpdateBuffer(r) => r in s.midway
    case CompleteTx(_) => true
    case ForeignWrite(_, _, _) => true
  }

  function FindAt(st: Storage, r: RangeId, k: Bytes): Option<Bytes> {
    if (r, k) in st then Some(st[(r, k)]) else None
  }

  function Written(st: Storage, r: RangeId, k: Bytes, val: Option<Bytes>): Storage {
    if val.Some? then st[(r, k) := val.value] else st - {(r, k)}
  }

  function HomesOf(s: State, k: Bytes): set<RangeId> {
    if k in s.homes then s.homes[k] else {}
  }

  predicate IsFetched(b: Buffer, k: Bytes) {
    k in b.states && b.states[k].Fetched?
  }

  function Ask(s: State, t: TxId, r: RangeId, k: Bytes): State {
    var found := StateFor(s.buf, k);
    s.(buf := Request(s.buf, t, k),
       homes := s.homes[k := HomesOf(s, k) + {r}],
       fetches := if found.Requested? then s.fetches[s.next := Fetch(r, k, found.n, None)] else s.fetches,
       waiters := if found.Loading? then s.waiters[s.next := Waiter(r, k, found.n, false)] else s.waiters,
       next := s.next + 1)
  }

  /**
   * A woken waiter puts the key back to loading under its number, without looking at its state. If the key
   * was there it goes on to fetch it; if the key had been evicted it panics, leaving the state behind.
   */
  function Resume(s: State, i: nat): State
    requires i in s.waiters
  {
    var w := s.waiters[i];
    if w.k in s.buf.states then
      s.(buf := Reload(s.buf, w.k, w.n),
         fetches := s.fetches[s.next := Fetch(w.r, w.k, w.n, None)],
         waiters := s.waiters - {i},
         next := s.next + 1)
    else
      s.(buf := Reload(s.buf, w.k, w.n), homes := s.homes[w.k := {w.r}], waiters := s.waiters - {i})
  }

  function Finish(s: State, i: nat): State
    requires i in s.fetches && s.fetches[i].got.Some?
  {
    var f := s.fetches[i];
    s.(buf := FetchComplete(s.buf, f.k, f.got.value, f.n),
       failed := if IsLoading(s.buf, f.k, f.n) then s.failed - {f.k} else s.failed,
       fetches := s.fetches - {i})
  }

  function Fail(s: State, i: nat): State
    requires i in s.fetches
  {
    var f := s.fetches[i];
    s.(buf := FetchFailed(s.buf, f.k, f.n),
       failed := if IsLoading(s.buf, f.k, f.n) then s.failed + {f.k} else s.failed,
       fetches := s.fetches - {i})
  }

  function Publish(s: State, r: RangeId): State
    requires r in s.midway
  {
    var (k, val) := s.midway[r];
    s.(buf := Update(s.buf, k, val),
       failed := if k in s.buf.states && s.buf.states[k].Loading? then s.failed - {k} else s.failed,
       midway := s.midway - {r})
  }

  function Apply(s: State, a: Action): State
    requires Enabled(s, a)
  {
    match a
    case AskPrefetch(t, r, k) => Ask(s, t, r, k)
    case Wake(i) => s.(waiters := s.waiters[i := s.waiters[i].(woken := true)])
    case ResumeWaiter(i) => Resume(s, i)
    case ReadStorage(i) =>
      var f := s.fetches[i];
      s.(fetches := s.fetches[i := f.(got := Some(FindAt(s.storage, f.r, f.k)))])
    case FinishFetch(i) => Finish(s, i)
    case FailFetch(i) => Fail(s, i)
    case WriteStorage(r, k, val) => s.(storage := Written(s.storage, r, k, val), midway := s.midway[r := (k, val)])
    case UpdateBuffer(r) => Publish(s, r)
    case CompleteTx(t) => s.(buf := Complete(s.buf, t), homes := s.homes - Dropped(s.buf, t))
    case ForeignWrite(r, k, val) => s.(storage := Written(s.storage, r, k, val))
  }

  // ---------------------------------------------------------------- the conditions

  predicate Midway(s: State, r: RangeId, k: Bytes) {
    r in s.midway && s.midway[r].0 == k
  }

  /**
   * A fetch of the waiter's key under its number is in flight. If the key has been evicted, so that no
   * second fetch is started, that one does harm only if it is another range's or has read something else
   * than storage now has, with no commit about to make it obsolete.
   */
  ghost predicate Collides(s: State, w: Waiter, j: nat) {
    && j in s.fetches && s.fetches[j].k == w.k && s.fetches[j].n == w.n
    && (w.k in s.buf.states
        || (!Midway(s, w.r, w.k) && (s.fetches[j].r != w.r || Outdated(s, s.fetches[j]))))
  }

  /** The fetch has read something else than storage now has. */
  predicate Outdated(s: State, f: Fetch) {
    f.got.Some? && f.got.value != FindAt(s.storage, f.r, f.k)
  }

  /** A waiter resumes over a fetch in flight. */
  ghost predicate Overwrites(s: State, a: Action) {
    a.ResumeWaiter? && a.i in s.waiters && exists j :: Collides(s, s.waiters[a.i], j)
  }

  /** A commit is midway on the key under a range it was requested for. */
  ghost predicate HomeMidway(s: State, k: Bytes) {
    exists q :: q in HomesOf(s, k) && Midway(s, q, k)
  }

  /** A commit is midway on the key under a range it was not requested for. */
  ghost predicate Crossed(s: State, k: Bytes) {
    exists q :: q !in HomesOf(s, k) && Midway(s, q, k)
  }

  /**
   * A key in the buffer for one range is requested, resumed or written under another range, or starts to be
   * fetched while a commit of another range is midway on it. Deleting a key that waits to be fetched does not
   * matter, nor does a resumed fetch that a commit is about to make obsolete.
   */
  ghost predicate Strays(s: State, a: Action) {
    match a
    case AskPrefetch(_, r, k) =>
      (k in s.buf.states && r !in HomesOf(s, k)) || exists q :: q != r && Midway(s, q, k)
    case ResumeWaiter(i) => i in s.waiters && StraysBack(s, s.waiters[i].r, s.waiters[i].k)
    case WriteStorage(r, k, val) =>
      k in s.buf.states && r !in HomesOf(s, k) && (val.Some? || !s.buf.states[k].Requested?)
    case _ => false
  }

  ghost predicate StraysBack(s: State, r: RangeId, k: Bytes) {
    if k in s.buf.states then Crossed(s, k) || (r !in HomesOf(s, k) && !HomeMidway(s, k))
    else exists q :: q != r && Midway(s, q, k)
  }

  /** The key is in the buffer for another range and nobody asks for it, so that it will not be evicted. */
  predicate Stranded(s: State, r: RangeId, k: Bytes) {
    k in Orphans(s.buf) && r !in HomesOf(s, k)
  }

  /** The buffer has a value for the key, or will get one without reading storage again. */
  ghost predicate Holding(s: State, r: RangeId, k: Bytes) {
    || (Midway(s, r, k) && !Stranded(s, r, k))
    || (&& k in s.buf.states && r in HomesOf(s, k)
        && (s.buf.states[k].Fetched? || exists j :: Reading(s, r, k, j)))
  }

  /** A fetch for the range under the number being loaded has read storage. */
  ghost predicate Reading(s: State, r: RangeId, k: Bytes, j: nat) {
    && j in s.fetches && s.fetches[j].k == k && s.fetches[j].r == r && IsLoading(s.buf, k, s.fetches[j].n)
    && s.fetches[j].got.Some?
  }

  /**
   * Another server changes what storage has for a key this one's buffer has a value for, or deletes what it keeps
   * a value of, unless a commit is about to take that away.
   */
  ghost predicate Contradicts(s: State, a: Action) {
    && a.ForeignWrite? && a.val != FindAt(s.storage, a.r, a.k)
    && (Holding(s, a.r, a.k) || (a.val.None? && a.k in s.buf.store && a.r in HomesOf(s, a.k) && !Crossed(s, a.k)))
  }

  ghost predicate Breaks(s: State, a: Action) {
    Overwrites(s, a) || Strays(s, a) || Contradicts(s, a)
  }

  /** A waiter resumes after its key has been evicted. */
  predicate Deserts(s: State, a: Action) {
    a.ResumeWaiter? && a.i in s.waiters && s.waiters[a.i].k !in s.buf.states
  }

  // ---------------------------------------------------------------- coherence

  ghost predicate CoherentAt(s: State, r: RangeId, k: Bytes) {
    IsFetched(s.buf, k) && !Midway(s, r, k) ==> Find(s.buf.store, k) == FindAt(s.storage, r, k)
  }

  /** A fetched key has in the buffer exactly what storage has for the ranges it was requested under. */
  ghost predicate Coherent(s: State) {
    forall k, r :: k in s.buf.states && r in HomesOf(s, k) ==> CoherentAt(s, r, k)
  }

  ghost predicate KeyOk(s: State, k: Bytes) {
    k in s.buf.states ==>
      && (s.buf.states[k].Fetched? || s.buf.states[k].n <= s.buf.seqNo)
      && HomesOf(s, k) != {} && (forall r, q :: r in HomesOf(s, k) && q in HomesOf(s, k) ==> r == q)
      && (forall r :: r in HomesOf(s, k) ==> HomeOk(s, r, k))
      && CrossOk(s.midway, HomesOf(s, k), s.buf.states[k], k)
  }

  /** A commit midway on the key under another range is a deletion, and the key waits to be fetched. */
  ghost predicate CrossOk(midway: map<RangeId, (Bytes, Option<Bytes>)>, homes: set<RangeId>, st: KeyState, k: Bytes) {
    forall r :: r in midway && midway[r].0 == k && r !in homes ==> st.Requested? && midway[r].1.None?
  }

  ghost predicate HomeOk(s: State, r: RangeId, k: Bytes) {
    && (k in s.buf.store && !Midway(s, r, k) && !Crossed(s, k) ==> FindAt(s.storage, r, k).Some?)
    && CoherentAt(s, r, k)
  }

  ghost predicate FetchOk(s: State, i: nat)
    requires i in s.fetches
  {
    var f := s.fetches[i];
    && i < s.next && f.n <= s.buf.seqNo
    && (f.k in s.buf.states ==> s.buf.states[f.k] != Requested(f.n))
    && (IsLoading(s.buf, f.k, f.n) ==> f.r in HomesOf(s, f.k) || HomeMidway(s, f.k))
    && (IsLoading(s.buf, f.k, f.n) && f.r in HomesOf(s, f.k) && f.got.Some? && !Midway(s, f.r, f.k) ==>
          f.got.value == FindAt(s.storage, f.r, f.k))
  }

  /** A key that is loading, and for which the buffer keeps a value, is being fetched under its number. */
  ghost predicate BeingFetched(s: State, k: Bytes) {
    k in s.buf.states && s.buf.states[k].Loading? && k in s.buf.store ==>
      exists j :: j in s.fetches && s.fetches[j].k == k && s.fetches[j].n == s.buf.states[k].n
  }

  /** At most one fetch of a key under a number is in flight. */
  ghost predicate OneEach(fs: map<nat, Fetch>) {
    forall i, j :: i in fs && j in fs && fs[i].k == fs[j].k && fs[i].n == fs[j].n ==> i == j
  }

  /** Storage has what a commit is midway with, or what it has then does not matter. */
  predicate MidwayOk(s: State, r: RangeId)
    requires r in s.midway
  {
    FindAt(s.storage, r, s.midway[r].0) == s.midway[r].1 || Stranded(s, r, s.midway[r].0)
  }

  ghost predicate Inv(s: State) {
    && Counted(s.buf) && s.homes.Keys == s.buf.states.Keys
    && (forall k :: KeyOk(s, k)) && (forall k :: BeingFetched(s, k))
    && (forall r :: r in s.midway ==> MidwayOk(s, r))
    && (forall i :: i in s.fetches ==> FetchOk(s, i))
    && OneEach(s.fetches)
    && (forall i :: i in s.waiters ==> s.waiters[i].n <= s.buf.seqNo && i < s.next)
  }

  lemma StepCounted(s: State, a: Action)
    requires Counted(s.buf) && Enabled(s, a)
    ensures Counted(Apply(s, a).buf)
    ensures Orphans(Apply(s, a).buf) ==
            if a.AskPrefetch? then Orphans(s.buf) - {a.k}
            else if Deserts(s, a) then Orphans(s.buf) + {s.waiters[a.i].k}
            else Orphans(s.buf)
  {
    hide Counted, Orphans, Request, FetchComplete, FetchFailed, Update, Complete, Reload;
    match a
    case AskPrefetch(t, r, k) => RequestExact(s.buf, t, k);
    case ResumeWaiter(i) => ReloadOrphans(s.buf, s.waiters[i].k, s.waiters[i].n);
    case FinishFetch(i) => FetchExact(s.buf, s.fetches[i].k, s.fetches[i].got.value, s.fetches[i].n);
    case FailFetch(i) => FetchExact(s.buf, s.fetches[i].k, None, s.fetches[i].n);
    case UpdateBuffer(r) => FetchExact(s.buf, s.midway[r].0, s.midway[r].1, 0);
    case CompleteTx(t) => CompleteExact(s.buf, t);
    case _ =>
  }

  lemma StepHomes(s: State, a: Action)
    requires Enabled(s, a) && s.homes.Keys == s.buf.states.Keys
    ensures Apply(s, a).homes.Keys == Apply(s, a).buf.states.Keys
  {
    hide Find, StateFor, KeysOf, TxsOf;
    if a.ResumeWaiter? {
      assert Resume(s, a.i).homes.Keys == s.homes.Keys + {s.waiters[a.i].k};
    } else if a.AskPrefetch? {
      assert Ask(s, a.t, a.r, a.k).homes.Keys == s.homes.Keys + {a.k};
    }
  }

  // ---------------------------------------------------------------- one step

  lemma AskKey(s: State, t: TxId, r: RangeId, k0: Bytes, k: Bytes)
    requires Inv(s) && !Strays(s, AskPrefetch(t, r, k0))
    ensures KeyOk(Ask(s, t, r, k0), k)
  {
    hide Counted, FetchOk;
    StoreKnown(s.buf);
    assert KeyOk(s, k);
    var s' := Ask(s, t, r, k0);
    assert HomesOf(s', k) == if k == k0 && k !in s.buf.states then {r} else HomesOf(s, k);
    if k in s'.buf.states {
      if k == k0 { forall q | q in s.midway && s.midway[q].0 == k ensures q == r { assert Midway(s, q, k); } }
      forall q | q in HomesOf(s', k) ensures HomeOk(s', q, k) { assert k in s.buf.states ==> HomeOk(s, q, k); }
    }
  }

  lemma StoreKnown(b: Buffer)
    requires Counted(b)
    ensures b.store.Keys <= b.states.Keys
  {
  }

  lemma ResumeKey(s: State, i: nat, k: Bytes)
    requires Inv(s) && Enabled(s, ResumeWaiter(i)) && !Strays(s, ResumeWaiter(i))
    ensures KeyOk(Resume(s, i), k)
  {
    StoreKnown(s.buf);
    hide Counted, FetchOk;
    assert KeyOk(s, k);
    hide KeyOk;
    var s', w := Resume(s, i), s.waiters[i];
    hide Inv;
    if k != w.k {
      UntouchedKey(s, s', k);
    } else {
      forall q | q in s.midway && s.midway[q].0 == k ensures q in HomesOf(s', k) { assert Midway(s, q, k); }
      if k in s.buf.states {
        KeyParts(s, k);
        forall q | q in HomesOf(s', k) ensures HomeOk(s', q, k) { assert HomeOk(s, q, k); }
      }
      hide HomeOk;
      KeyFrom(s', k);
    }
  }

  /** A step that does not concern the key. */
  lemma UntouchedKey(s: State, s': State, k: Bytes)
    requires KeyOk(s, k) && s'.storage == s.storage && s'.midway == s.midway && s'.buf.seqNo == s.buf.seqNo
    requires HomesOf(s', k) == HomesOf(s, k) && (k in s'.buf.store <==> k in s.buf.store)
    requires Find(s'.buf.store, k) == Find(s.buf.store, k)
    requires k in s'.buf.states <==> k in s.buf.states
    requires k in s.buf.states ==> s'.buf.states[k] == s.buf.states[k]
    ensures KeyOk(s', k)
  {
  }

  lemma FinishKey(s: State, i: nat, k: Bytes)
    requires Inv(s) && Enabled(s, FinishFetch(i))
    ensures KeyOk(Finish(s, i), k)
  {
    hide Counted;
    assert KeyOk(s, k);
    assert FetchOk(s, i);
    hide FetchOk, KeyOk;
    var s', f := Finish(s, i), s.fetches[i];
    if k == f.k && IsLoading(s.buf, k, f.n) {
      KeyParts(s, k);
      forall q | q in HomesOf(s', k) ensures HomeOk(s', q, k) {
        assert HomeOk(s, q, k);
        assert q == f.r || Midway(s, q, k);
      }
      hide HomeOk;
      KeyFrom(s', k);
    } else {
      UntouchedKey(s, s', k);
    }
  }

  lemma KeyParts(s: State, k: Bytes)
    requires KeyOk(s, k) && k in s.buf.states
    ensures s.buf.states[k].Fetched? || s.buf.states[k].n <= s.buf.seqNo
    ensures HomesOf(s, k) != {} && (forall r, q :: r in HomesOf(s, k) && q in HomesOf(s, k) ==> r == q)
    ensures forall r :: r in HomesOf(s, k) ==> HomeOk(s, r, k)
    ensures CrossOk(s.midway, HomesOf(s, k), s.buf.states[k], k)
  {
    hide HomeOk;
  }

  lemma KeyFrom(s: State, k: Bytes)
    requires k in s.buf.states && (s.buf.states[k].Fetched? || s.buf.states[k].n <= s.buf.seqNo)
    requires HomesOf(s, k) != {} && (forall r, q :: r in HomesOf(s, k) && q in HomesOf(s, k) ==> r == q)
    requires forall r :: r in HomesOf(s, k) ==> HomeOk(s, r, k)
    requires CrossOk(s.midway, HomesOf(s, k), s.buf.states[k], k)
    ensures KeyOk(s, k)
  {
    hide HomeOk;
  }

  lemma KeyAbsent(s: State, k: Bytes)
    requires k !in s.buf.states
    ensures KeyOk(s, k)
  {
  }

  lemma FailKey(s: State, i: nat, k: Bytes)
    requires Inv(s) && Enabled(s, FailFetch(i))
    ensures KeyOk(Fail(s, i), k)
  {
    hide Counted;
    assert KeyOk(s, k);
    assert FetchOk(s, i);
    hide FetchOk, KeyOk;
    var s' := Fail(s, i);
    if k in s.buf.states {
      KeyParts(s, k);
      forall q | q in HomesOf(s', k) ensures HomeOk(s', q, k) { assert HomeOk(s, q, k); }
      KeyFrom(s', k);
    } else {
      KeyAbsent(s', k);
    }
  }

  lemma WriteKey(s: State, r: RangeId, k0: Bytes, val: Option<Bytes>, k: Bytes)
    requires Inv(s) && Enabled(s, WriteStorage(r, k0, val)) && !Strays(s, WriteStorage(r, k0, val))
    ensures KeyOk(Apply(s, WriteStorage(r, k0, val)), k)
  {
    hide Counted, FetchOk;
    assert KeyOk(s, k);
    hide KeyOk;
    var s' := Apply(s, WriteStorage(r, k0, val));
    if k in s.buf.states {
      KeyParts(s, k);
      forall q | q in HomesOf(s', k) ensures HomeOk(s', q, k) { assert HomeOk(s, q, k); }
      KeyFrom(s', k);
    } else {
      KeyAbsent(s', k);
    }
  }

  lemma PublishKey(s: State, r: RangeId, k: Bytes)
    requires Inv(s) && r in s.midway
    ensures KeyOk(Publish(s, r), k)
  {
    hide Counted, FetchOk;
    assert KeyOk(s, k);
    hide KeyOk;
    var s', k0, val := Publish(s, r), s.midway[r].0, s.midway[r].1;
    assert MidwayOk(s, r);
    if k in s.buf.states {
      KeyParts(s, k);
      forall q | q in HomesOf(s', k) ensures HomeOk(s', q, k) {
        assert HomeOk(s, q, k);
        assert k == k0 ==> Midway(s, r, k) && (q == r || val.None?);
      }
      KeyFrom(s', k);
    } else {
      KeyAbsent(s', k);
    }
  }

  lemma CompleteKey(s: State, t: TxId, k: Bytes)
    requires Inv(s)
    ensures KeyOk(Apply(s, CompleteTx(t)), k)
  {
    hide Counted, FetchOk;
    assert KeyOk(s, k);
  }

  lemma ForeignKey(s: State, r: RangeId, k0: Bytes, val: Option<Bytes>, k: Bytes)
    requires Inv(s) && !Contradicts(s, ForeignWrite(r, k0, val))
    ensures KeyOk(Apply(s, ForeignWrite(r, k0, val)), k)
  {
    hide Counted, FetchOk;
    assert KeyOk(s, k);
  }

  lemma StepKey(s: State, a: Action, k: Bytes)
    requires Inv(s) && Enabled(s, a) && !Breaks(s, a)
    ensures KeyOk(Apply(s, a), k)
  {
    hide Inv, KeyOk;
    match a
    case AskPrefetch(t, r, k0) => AskKey(s, t, r, k0, k);
    case ResumeWaiter(i) => ResumeKey(s, i, k);
    case FinishFetch(i) => FinishKey(s, i, k);
    case FailFetch(i) => FailKey(s, i, k);
    case WriteStorage(r, k0, val) => WriteKey(s, r, k0, val, k);
    case UpdateBuffer(r) => PublishKey(s, r, k);
    case CompleteTx(t) => CompleteKey(s, t, k);
    case ForeignWrite(r, k0, val) => ForeignKey(s, r, k0, val, k);
    case Wake(i) => SameKey(s, Apply(s, a), k);
    case ReadStorage(i) => SameKey(s, Apply(s, a), k);
  }

  lemma SameKey(s: State, s': State, k: Bytes)
    requires Inv(s) && s'.buf == s.buf && s'.storage == s.storage && s'.midway == s.midway && s'.homes == s.homes
    ensures KeyOk(s', k)
  {
    hide Counted, FetchOk;
    assert KeyOk(s, k);
  }

  lemma StepFetch(s: State, a: Action, i: nat)
    requires Inv(s) && Enabled(s, a) && !Breaks(s, a) && i in Apply(s, a).fetches
    ensures FetchOk(Apply(s, a), i)
  {
    if a.AskPrefetch? { AskFetch(s, a.t, a.r, a.k, i); }
    else if a.ResumeWaiter? { ResumeFetch(s, a.i, i); }
    else if a.FinishFetch? || a.FailFetch? || a.ReadStorage? { FetchFetch(s, a, i); }
    else { OtherFetch(s, a, i); }
  }

  lemma AskFetch(s: State, t: TxId, r: RangeId, k: Bytes, i: nat)
    requires Inv(s) && !Strays(s, AskPrefetch(t, r, k)) && i in Ask(s, t, r, k).fetches
    ensures FetchOk(Ask(s, t, r, k), i)
  {
    hide Counted;
    assert KeyOk(s, k);
    hide KeyOk;
    if i in s.fetches { assert FetchOk(s, i); }
  }

  lemma ResumeFetch(s: State, j: nat, i: nat)
    requires Inv(s) && Enabled(s, ResumeWaiter(j)) && !Breaks(s, ResumeWaiter(j)) && i in Resume(s, j).fetches
    ensures FetchOk(Resume(s, j), i)
  {
    hide Counted, KeyOk, BeingFetched;
    var w := s.waiters[j];
    if i in s.fetches {
      assert FetchOk(s, i);
      assert !Collides(s, w, i);
    }
    var s' := Resume(s, j);
    if w.k !in s.buf.states && Midway(s, w.r, w.k) { assert w.r in HomesOf(s', w.k) && Midway(s', w.r, w.k); }
  }

  lemma FetchFetch(s: State, a: Action, i: nat)
    requires Inv(s) && Enabled(s, a) && (a.FinishFetch? || a.FailFetch? || a.ReadStorage?) && i in Apply(s, a).fetches
    ensures FetchOk(Apply(s, a), i)
  {
    hide Counted, KeyOk;
    assert FetchOk(s, i);
    assert FetchOk(s, a.i);
  }

  lemma OtherFetch(s: State, a: Action, i: nat)
    requires Inv(s) && Enabled(s, a) && !Breaks(s, a) && i in Apply(s, a).fetches
    requires a.Wake? || a.WriteStorage? || a.UpdateBuffer? || a.CompleteTx? || a.ForeignWrite?
    ensures FetchOk(Apply(s, a), i)
  {
    hide Inv, FetchOk, KeyOk;
    if a.UpdateBuffer? { PublishFetch(s, a.r, i); }
    else if a.CompleteTx? { CompleteFetch(s, a.t, i); }
    else { StorageFetch(s, a, i); }
  }

  lemma PublishFetch(s: State, r: RangeId, i: nat)
    requires Inv(s) && r in s.midway && i in s.fetches
    ensures FetchOk(Publish(s, r), i)
  {
    hide Counted, BeingFetched, HomeOk;
    assert FetchOk(s, i);
    hide KeyOk;
  }

  lemma CompleteFetch(s: State, t: TxId, i: nat)
    requires Inv(s) && i in s.fetches
    ensures FetchOk(Apply(s, CompleteTx(t)), i)
  {
    hide Counted, BeingFetched, KeyOk;
    assert FetchOk(s, i);
  }

  lemma StorageFetch(s: State, a: Action, i: nat)
    requires Inv(s) && Enabled(s, a) && !Breaks(s, a) && i in s.fetches
    requires a.Wake? || a.WriteStorage? || a.ForeignWrite?
    ensures FetchOk(Apply(s, a), i)
  {
    hide Counted, BeingFetched, HomeOk;
    assert FetchOk(s, i);
    assert KeyOk(s, s.fetches[i].k);
    hide KeyOk;
    var f := s.fetches[i];
    assert IsLoading(s.buf, f.k, f.n) && f.got.Some? ==> Reading(s, f.r, f.k, i);
  }

  lemma StepFetched(s: State, a: Action, k: Bytes)
    requires Inv(s) && Enabled(s, a)
    ensures BeingFetched(Apply(s, a), k)
  {
    hide Counted, KeyOk;
    assert BeingFetched(s, k);
    var s' := Apply(s, a);
    forall i | i in s.fetches ensures i < s.next { assert FetchOk(s, i); }
    hide FetchOk;
    if a.ResumeWaiter? && s.waiters[a.i].k == k {
      assert k in s.buf.states ==> s.next in s'.fetches;
      assert k !in s.buf.states ==> k !in s.buf.store by { StoreKnown(s.buf); }
    } else if a.AskPrefetch? && a.k == k && StateFor(s.buf, k).Requested? {
      assert s.next in s'.fetches;
    } else if k in s'.buf.states && s'.buf.states[k].Loading? && k in s'.buf.store {
      StillFetched(s, a, k);
    }
  }

  lemma StillFetched(s: State, a: Action, k: Bytes)
    requires Inv(s) && Enabled(s, a) && BeingFetched(s, k) && (forall i :: i in s.fetches ==> i < s.next)
    requires !(a.ResumeWaiter? && s.waiters[a.i].k == k)
    requires !(a.AskPrefetch? && a.k == k && StateFor(s.buf, k).Requested?)
    requires k in Apply(s, a).buf.states && Apply(s, a).buf.states[k].Loading? && k in Apply(s, a).buf.store
    ensures BeingFetched(Apply(s, a), k)
  {
    hide Inv;
    StillLoading(s, a, k);
    var s' := Apply(s, a);
    var j :| j in s.fetches && s.fetches[j].k == k && s.fetches[j].n == s.buf.states[k].n;
    hide Request, Update, Complete;
    assert j in s'.fetches && s'.fetches[j].k == k && s'.fetches[j].n == s.fetches[j].n;
  }

  /** A key that goes on loading has kept its state, and no fetch under its number has ended. */
  lemma StillLoading(s: State, a: Action, k: Bytes)
    requires Enabled(s, a) && k in Apply(s, a).buf.states && Apply(s, a).buf.states[k].Loading?
    requires k in Apply(s, a).buf.store
    requires !(a.ResumeWaiter? && s.waiters[a.i].k == k)
    requires !(a.AskPrefetch? && a.k == k && StateFor(s.buf, k).Requested?)
    ensures k in s.buf.states && s.buf.states[k] == Apply(s, a).buf.states[k] && k in s.buf.store
    ensures a.FinishFetch? || a.FailFetch? ==> !(s.fetches[a.i].k == k && s.fetches[a.i].n == s.buf.states[k].n)
  {
    hide TxsOf, KeysOf, Find, FindAt, Written;
    match a
    case CompleteTx(t) =>
    case UpdateBuffer(r) =>
    case AskPrefetch(t, r, q) =>
    case _ =>
  }

  lemma StrandedStays(s: State, a: Action, r: RangeId)
    requires Inv(s) && Enabled(s, a) && !Breaks(s, a) && r in s.midway && Stranded(s, r, s.midway[r].0)
    ensures Stranded(Apply(s, a), r, s.midway[r].0)
  {
    hide FetchOk, BeingFetched, KeyOk, Find, FindAt, Written;
    assert Midway(s, r, s.midway[r].0);
    assert Crossed(s, s.midway[r].0);
    StepCounted(s, a);
    hide Counted, Orphans;
  }

  lemma StepMidway(s: State, a: Action, r: RangeId)
    requires Inv(s) && Enabled(s, a) && !Breaks(s, a) && r in Apply(s, a).midway
    ensures MidwayOk(Apply(s, a), r)
  {
    if r in s.midway {
      assert MidwayOk(s, r);
      assert Midway(s, r, s.midway[r].0);
      if Stranded(s, r, s.midway[r].0) { StrandedStays(s, a, r); }
    }
    hide Inv, Stranded;
  }

  lemma StepWaiters(s: State, a: Action)
    requires Inv(s) && Enabled(s, a)
    ensures var s' := Apply(s, a); forall i :: i in s'.waiters ==> s'.waiters[i].n <= s'.buf.seqNo && i < s'.next
  {
    hide Counted, FetchOk, BeingFetched, HomeOk, MidwayOk;
    if a.AskPrefetch? { assert KeyOk(s, a.k); }
    hide KeyOk;
  }

  lemma StepNumbers(s: State, a: Action)
    requires Inv(s) && Enabled(s, a) && !Breaks(s, a)
    ensures OneEach(Apply(s, a).fetches)
  {
    hide Counted, BeingFetched, KeyOk;
    forall i | i in s.fetches
      ensures i < s.next && s.fetches[i].n <= s.buf.seqNo
      ensures s.fetches[i].k in s.buf.states ==> s.buf.states[s.fetches[i].k] != Requested(s.fetches[i].n)
    {
      assert FetchOk(s, i);
    }
    hide FetchOk;
    if a.ResumeWaiter? && s.waiters[a.i].k in s.buf.states {
      forall i | i in s.fetches ensures !(s.fetches[i].k == s.waiters[a.i].k && s.fetches[i].n == s.waiters[a.i].n) {
        assert !Collides(s, s.waiters[a.i], i);
      }
    }
  }

  lemma StepInv(s: State, a: Action)
    requires Inv(s) && Enabled(s, a) && !Breaks(s, a)
    ensures Inv(Apply(s, a))
  {
    hide Counted, KeyOk, FetchOk, BeingFetched, Breaks, MidwayOk;
    var s' := Apply(s, a);
    StepCounted(s, a);
    StepHomes(s, a);
    StepWaiters(s, a);
    StepNumbers(s, a);
    forall r | r in s'.midway ensures MidwayOk(s', r) { StepMidway(s, a, r); }
    forall k ensures KeyOk(s', k) && BeingFetched(s', k) { StepKey(s, a, k); StepFetched(s, a, k); }
    forall i | i in s'.fetches ensures FetchOk(s', i) { StepFetch(s, a, i); }
  }

  // ---------------------------------------------------------------- whole runs

  predicate Initial(s: State) {
    && s.buf == EMPTY && s.fetches == map[] && s.waiters == map[] && s.midway == map[] && s.failed == {}
    && s.homes == map[]
  }

  predicate IsRun(s: State, acts: seq<Action>)
    decreases |acts|
  {
    acts == [] || (Enabled(s, acts[0]) && IsRun(Apply(s, acts[0]), acts[1..]))
  }

  function After(s: State, acts: seq<Action>): State
    requires IsRun(s, acts)
    decreases |acts|
  {
    if acts == [] then s else After(Apply(s, acts[0]), acts[1..])
  }

  ghost predicate IsSafeRun(s: State, acts: seq<Action>)
    decreases |acts|
  {
    acts == [] || (Enabled(s, acts[0]) && !Breaks(s, acts[0]) && IsSafeRun(Apply(s, acts[0]), acts[1..]))
  }

  lemma InitialInv(s: State)
    requires Initial(s)
    ensures Inv(s)
  {
  }

  lemma {:induction false} RunInv(s: State, acts: seq<Action>)
    requires Inv(s) && IsSafeRun(s, acts)
    ensures IsRun(s, acts) && Inv(After(s, acts))
    decreases |acts|
  {
    hide Inv;
    if acts != [] {
      StepInv(s, acts[0]);
      RunInv(Apply(s, acts[0]), acts[1..]);
    }
  }

  lemma InvCoherent(s: State)
    requires Inv(s)
    ensures Coherent(s)
  {
    forall k, r | k in s.buf.states && r in HomesOf(s, k) ensures CoherentAt(s, r, k) { assert KeyOk(s, k); }
  }

  /** In every safe run, whenever no commit is midway on a key, a fetched key agrees with storage, orphan or not. */
  lemma BufferStaysCoherent(s: State, acts: seq<Action>)
    requires Initial(s) && IsSafeRun(s, acts)
    ensures IsRun(s, acts) && Coherent(After(s, acts))
  {
    hide Coherent;
    InitialInv(s);
    RunInv(s, acts);
    InvCoherent(After(s, acts));
  }

  // ---------------------------------------------------------------- bookkeeping, in every run

  lemma {:induction false} RunCounted(s: State, acts: seq<Action>)
    requires Counted(s.buf) && IsRun(s, acts)
    ensures Counted(After(s, acts).buf)
    decreases |acts|
  {
    hide Counted;
    if acts != [] {
      StepCounted(s, acts[0]);
      RunCounted(Apply(s, acts[0]), acts[1..]);
    }
  }

  ghost predicate ExactThroughout(s: State, acts: seq<Action>)
    requires IsRun(s, acts)
    decreases |acts|
  {
    Exact(s.buf) && (acts != [] ==> ExactThroughout(Apply(s, acts[0]), acts[1..]))
  }

  predicate NoDeserter(s: State, acts: seq<Action>)
    requires IsRun(s, acts)
    decreases |acts|
  {
    acts == [] || (!Deserts(s, acts[0]) && NoDeserter(Apply(s, acts[0]), acts[1..]))
  }

  lemma {:induction false} ExactIff(s: State, acts: seq<Action>)
    requires Exact(s.buf) && IsRun(s, acts)
    ensures ExactThroughout(s, acts) <==> NoDeserter(s, acts)
    decreases |acts|
  {
    hide Counted, Orphans;
    if acts != [] {
      StepCounted(s, acts[0]);
      if !Deserts(s, acts[0]) { ExactIff(Apply(s, acts[0]), acts[1..]); }
    }
  }

  /**
   * The bookkeeping is exact in all states of a run, safe or not, if and only if no waiter resumes after its key
   * was evicted.
   */
  lemma RunExactIff(s: State, acts: seq<Action>)
    requires Initial(s) && IsRun(s, acts)
    ensures ExactThroughout(s, acts) <==> NoDeserter(s, acts)
  {
    ExactIff(s, acts);
  }

  /** In every run, once all transactions have completed, the orphans are left and nothing else. */
  lemma OrphansAreLeft(s: State, acts: seq<Action>)
    requires Initial(s) && IsRun(s, acts) && After(s, acts).buf.txKeys == map[]
    ensures var b := After(s, acts).buf; b.keyTxs == map[] && b.states.Keys == Orphans(b) && b.store.Keys <= Orphans(b)
  {
    RunCounted(s, acts);
    var b := After(s, acts).buf;
    NothingElse(b);
  }

  // ---------------------------------------------------------------- late fetches

  /** If the fetch is still in flight, its key is not loading under its number. */
  ghost predicate Late(s: State, i: nat, f: Fetch) {
    && i < s.next
    && (i in s.fetches ==> s.fetches[i].k == f.k && s.fetches[i].n == f.n && !IsLoading(s.buf, f.k, f.n))
  }

  lemma LateStays(s: State, a: Action, i: nat, f: Fetch)
    requires Inv(s) && Enabled(s, a) && !Breaks(s, a) && !Deserts(s, a) && Late(s, i, f)
    ensures Late(Apply(s, a), i, f)
  {
    hide Counted, BeingFetched;
    if i in s.fetches { assert FetchOk(s, i); }
    hide KeyOk, FetchOk;
    if a.ResumeWaiter? && i in s.fetches { assert !Collides(s, s.waiters[a.i], i); }
  }

  lemma {:induction false} LateForever(s: State, acts: seq<Action>, i: nat, f: Fetch)
    requires Inv(s) && IsSafeRun(s, acts) && IsRun(s, acts) && NoDeserter(s, acts) && Late(s, i, f)
    ensures Late(After(s, acts), i, f)
    decreases |acts|
  {
    hide Inv, Late;
    if acts != [] {
      LateStays(s, acts[0], i, f);
      StepInv(s, acts[0]);
      LateForever(Apply(s, acts[0]), acts[1..], i, f);
    }
  }

  /**
   * Once the key of a fetch in flight is no longer loading under its number, that fetch never has any
   * effect on the buffer again, however late it ends and whatever happens before, short of a waiter that
   * resumes after its key was evicted.
   */
  lemma LateFetchIgnored(s: State, acts: seq<Action>, more: seq<Action>, i: nat)
    requires Initial(s) && IsSafeRun(s, acts) && IsRun(s, acts)
    requires IsSafeRun(After(s, acts), more) && IsRun(After(s, acts), more) && NoDeserter(After(s, acts), more)
    requires var s1 := After(s, acts); i in s1.fetches && !IsLoading(s1.buf, s1.fetches[i].k, s1.fetches[i].n)
    requires i in After(After(s, acts), more).fetches
    ensures var s2 := After(After(s, acts), more);
            Fail(s2, i).buf == s2.buf && (s2.fetches[i].got.Some? ==> Finish(s2, i).buf == s2.buf)
  {
    hide Inv;
    InitialInv(s);
    RunInv(s, acts);
    var s1 := After(s, acts);
    FetchNumbered(s1, i);
    LateForever(s1, more, i, s1.fetches[i]);
  }

  lemma FetchNumbered(s: State, i: nat)
    requires Inv(s) && i in s.fetches
    ensures i < s.next
  {
    hide Counted, KeyOk, BeingFetched;
    assert FetchOk(s, i);
  }

  // ---------------------------------------------------------------- locked gets

  /** What a locked get of a range manager answers: the buffer first, then storage. */
  datatype Answer = Value(val: Option<Bytes>) | PrefetchError

  function LockedGet(s: State, r: RangeId, k: Bytes): Answer {
    match GetFromBuffer(s.buf, k)
    case Hit(v) => Value(Some(v))
    case Miss => Value(FindAt(s.storage, r, k))
    case Broken => PrefetchError
  }

  /**
   * In safe runs a locked get, during which no commit of the range can be midway, answers with what
   * storage has for the range the key was requested under; it fails if and only if the key was fetched
   * and storage has nothing for it there. For a key that is not fetched it reads its own range.
   */
  lemma LockedGetReadsStorage(s: State, acts: seq<Action>, r: RangeId, k: Bytes, home: RangeId)
    requires Initial(s) && IsSafeRun(s, acts) && IsRun(s, acts)
    requires var s' := After(s, acts); home !in s'.midway && (k in s'.buf.states ==> home in HomesOf(s', k))
    ensures var s' := After(s, acts);
            LockedGet(s', r, k) ==
            if !IsFetched(s'.buf, k) then Value(FindAt(s'.storage, r, k))
            else if FindAt(s'.storage, home, k).None? then PrefetchError
            else Value(FindAt(s'.storage, home, k))
  {
    hide Coherent;
    InitialInv(s);
    RunInv(s, acts);
    hide Inv;
    InvCoherentAt(After(s, acts), home, k);
  }

  lemma InvCoherentAt(s: State, r: RangeId, k: Bytes)
    requires Inv(s)
    ensures k in s.buf.states && r in HomesOf(s, k) ==> CoherentAt(s, r, k)
  {
    hide CoherentAt;
    InvCoherent(s);
  }
}
