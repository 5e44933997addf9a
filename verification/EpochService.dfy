/** The objects of the epoch service, and the counting their quorums rest on. */
module EpochService {
  import opened Base
  import Epochs

  function MajorityCount(n: nat): nat {
    n / 2 + 1
  }

  /** How many publishers answered with epoch v; a publisher that failed to answer is None. */
  function Count(replies: seq<Option<Epoch>>, v: Epoch): nat
    decreases |replies|
  {
    if replies == [] then 0
    else Count(replies[..|replies| - 1], v) + (if replies[|replies| - 1] == Some(v) then 1 else 0)
  }

  function Successes(oks: seq<bool>): nat
    decreases |oks|
  {
    if oks == [] then 0 else Successes(oks[..|oks| - 1]) + (if oks[|oks| - 1] then 1 else 0)
  }

  lemma {:induction false} CountMono(replies: seq<Option<Epoch>>, i: nat, v: Epoch)
    requires i <= |replies|
    ensures Count(replies[..i], v) <= Count(replies, v)
    decreases |replies|
  {
    if i < |replies| {
      CountMono(replies[..|replies| - 1], i, v);
      assert replies[..|replies| - 1][..i] == replies[..i];
    } else {
      assert replies[..i] == replies;
    }
  }

  /** Two different values cannot both be counted a majority of times. */
  lemma {:induction false} CountsShare(replies: seq<Option<Epoch>>, v: Epoch, w: Epoch)
    requires v != w
    ensures Count(replies, v) + Count(replies, w) <= |replies|
    decreases |replies|
  {
    if replies != [] {
      CountsShare(replies[..|replies| - 1], v, w);
    }
  }

  lemma {:induction false} SuccessesMono(oks: seq<bool>, i: nat)
    requires i <= |oks|
    ensures Successes(oks[..i]) <= Successes(oks)
    decreases |oks|
  {
    if i < |oks| {
      SuccessesMono(oks[..|oks| - 1], i);
      assert oks[..|oks| - 1][..i] == oks[..i];
    } else {
      assert oks[..i] == oks;
    }
  }

  /** Which replies are an epoch, and which publishers accepted one. */
  function Answering(replies: seq<Option<Epoch>>, v: Epoch): set<nat> {
    set i: nat | i < |replies| && replies[i] == Some(v)
  }

  function Accepting(oks: seq<bool>): set<nat> {
    set i: nat | i < |oks| && oks[i]
  }

  lemma {:induction false} CountIsAnswering(replies: seq<Option<Epoch>>, v: Epoch)
    ensures Count(replies, v) == |Answering(replies, v)|
    decreases |replies|
  {
    if replies == [] {
      assert Answering(replies, v) == {};
    } else {
      var n: nat := |replies| - 1;
      CountIsAnswering(replies[..n], v);
      assert Answering(replies, v) == Answering(replies[..n], v) + if replies[n] == Some(v) then {n} else {};
    }
  }

  lemma {:induction false} SuccessesAreAccepting(oks: seq<bool>)
    ensures Successes(oks) == |Accepting(oks)|
    decreases |oks|
  {
    if oks == [] {
      assert Accepting(oks) == {};
    } else {
      var n: nat := |oks| - 1;
      SuccessesAreAccepting(oks[..n]);
      assert Accepting(oks) == Accepting(oks[..n]) + if oks[n] then {n} else {};
    }
  }

  /** More than half of the publishers accepted. */
  ghost predicate Accepted(oks: seq<bool>) {
    2 * |Accepting(oks)| > |oks|
  }

  /** Returns the value more than half of the publishers agree on, if there is one, in whatever order they reply. */
  method ReadEpoch(replies: seq<Option<Epoch>>) returns (res: Option<Epoch>)
    ensures forall v: Epoch :: res == Some(v) <==> 2 * |Answering(replies, v)| > |replies|
  {
    forall v: Epoch ensures Count(replies, v) == |Answering(replies, v)| { CountIsAnswering(replies, v); }
    hide Answering;
    var majority := |replies| / 2 + 1;
    var counts: map<Epoch, nat> := map[];
    for i := 0 to |replies|
      invariant forall v: Epoch :: v in counts ==> counts[v] == Count(replies[..i], v)
      invariant forall v: Epoch :: v !in counts ==> Count(replies[..i], v) == 0
      invariant forall v: Epoch :: Count(replies[..i], v) < majority
    {
      assert replies[..i + 1][..i] == replies[..i];
      if replies[i].Some? {
        var epoch := replies[i].value;
        var current := if epoch in counts then counts[epoch] else 0;
        if current + 1 >= majority {
          CountMono(replies, i + 1, epoch);
          forall w: Epoch | w != epoch ensures Count(replies, w) < majority {
            CountsShare(replies, epoch, w);
          }
          return Some(epoch);
        }
        counts := counts[epoch := current + 1];
      }
    }
    assert replies[..|replies|] == replies;
    res := None;
  }

  /** Publishing succeeds if and only if more than half of the publishers of the set accept. */
  method UpdateEpoch(oks: seq<bool>) returns (ok: bool)
    ensures ok <==> Accepted(oks)
  {
    SuccessesAreAccepting(oks);
    var majority := |oks| / 2 + 1;
    var numSuccess := 0;
    for i := 0 to |oks|
      invariant numSuccess == Successes(oks[..i]) && numSuccess < majority
    {
      assert oks[..i + 1][..i] == oks[..i];
      if !oks[i] {
        continue;
      }
      numSuccess := numSuccess + 1;
      if numSuccess >= majority {
        SuccessesMono(oks, i + 1);
        return true;
      }
    }
    assert oks[..|oks|] == oks;
    ok := false;
  }

  // ---------------------------------------------------------------- counts are quorums

  /** The replies in the order of some listing of the publishers of a set. */
  function RepliesOf(ps: seq<Epochs.PubId>, replies: map<Epochs.PubId, Epoch>): seq<Option<Epoch>> {
    seq(|ps|, i requires 0 <= i < |ps| => if ps[i] in replies then Some(replies[ps[i]]) else None)
  }

  ghost predicate NoDuplicates(ps: seq<Epochs.PubId>) {
    forall i, j :: 0 <= i < j < |ps| ==> ps[i] != ps[j]
  }

  function Listed(ps: seq<Epochs.PubId>): set<Epochs.PubId> {
    set p | p in ps
  }

  function VotersIn(ps: seq<Epochs.PubId>, replies: map<Epochs.PubId, Epoch>, v: Epoch): set<Epochs.PubId> {
    set p | p in ps && p in replies && replies[p] == v
  }

  lemma LastIsNew(ps: seq<Epochs.PubId>)
    requires NoDuplicates(ps) && ps != []
    ensures NoDuplicates(ps[..|ps| - 1]) && ps[|ps| - 1] !in ps[..|ps| - 1]
    ensures Listed(ps) == Listed(ps[..|ps| - 1]) + {ps[|ps| - 1]}
  {
  }

  lemma VotersLast(ps: seq<Epochs.PubId>, replies: map<Epochs.PubId, Epoch>, v: Epoch)
    requires ps != []
    ensures var init, last := ps[..|ps| - 1], ps[|ps| - 1];
            VotersIn(ps, replies, v) ==
            VotersIn(init, replies, v) + if last in replies && replies[last] == v then {last} else {}
  {
  }

  lemma RepliesLast(ps: seq<Epochs.PubId>, replies: map<Epochs.PubId, Epoch>, v: Epoch)
    requires ps != []
    ensures var init, last := ps[..|ps| - 1], ps[|ps| - 1];
            Count(RepliesOf(ps, replies), v) ==
            Count(RepliesOf(init, replies), v) + if last in replies && replies[last] == v then 1 else 0
  {
    assert RepliesOf(ps, replies)[..|ps| - 1] == RepliesOf(ps[..|ps| - 1], replies);
  }

  lemma {:induction false} CountIsVoters(ps: seq<Epochs.PubId>, replies: map<Epochs.PubId, Epoch>, v: Epoch)
    requires NoDuplicates(ps)
    ensures Count(RepliesOf(ps, replies), v) == |VotersIn(ps, replies, v)|
    ensures |Listed(ps)| == |ps|
    decreases |ps|
  {
    if ps == [] {
      assert VotersIn(ps, replies, v) == {} && Listed(ps) == {};
    } else {
      LastIsNew(ps);
      VotersLast(ps, replies, v);
      RepliesLast(ps, replies, v);
      assert ps[|ps| - 1] !in VotersIn(ps[..|ps| - 1], replies, v) && ps[|ps| - 1] !in Listed(ps[..|ps| - 1]);
      hide NoDuplicates, RepliesOf, VotersIn, Listed, Count;
      CountIsVoters(ps[..|ps| - 1], replies, v);
    }
  }

  /** Counting replies decides exactly the quorum condition of the epoch protocol. */
  lemma CountDecidesQuorum(ps: seq<Epochs.PubId>, r: Epochs.Reader, v: Epoch)
    requires NoDuplicates(ps) && r.replies.Keys <= Listed(ps)
    ensures Count(RepliesOf(ps, r.replies), v) >= MajorityCount(|ps|) <==>
              Epochs.Majority(Listed(ps), Epochs.Voters(r, v))
  {
    CountIsVoters(ps, r.replies, v);
    assert VotersIn(ps, r.replies, v) == Epochs.Voters(r, v);
  }

  /** What the publishers of a listing answer to a request to publish e, once those in `acked` have acknowledged. */
  function OksOf(ps: seq<Epochs.PubId>, acked: set<(Epochs.PubId, Epoch)>, e: Epoch): seq<bool> {
    seq(|ps|, i requires 0 <= i < |ps| => (ps[i], e) in acked)
  }

  lemma AckersLast(ps: seq<Epochs.PubId>, acked: set<(Epochs.PubId, Epoch)>, e: Epoch)
    requires ps != []
    ensures var init, last := ps[..|ps| - 1], ps[|ps| - 1];
            Epochs.Ackers(Listed(ps), acked, e) ==
            Epochs.Ackers(Listed(init), acked, e) + if (last, e) in acked then {last} else {}
  {
  }

  lemma OksLast(ps: seq<Epochs.PubId>, acked: set<(Epochs.PubId, Epoch)>, e: Epoch)
    requires ps != []
    ensures var init, last := ps[..|ps| - 1], ps[|ps| - 1];
            Successes(OksOf(ps, acked, e)) == Successes(OksOf(init, acked, e)) + if (last, e) in acked then 1 else 0
  {
    assert OksOf(ps, acked, e)[..|ps| - 1] == OksOf(ps[..|ps| - 1], acked, e);
  }

  lemma {:induction false} AcceptingAreAckers(ps: seq<Epochs.PubId>, acked: set<(Epochs.PubId, Epoch)>, e: Epoch)
    requires NoDuplicates(ps)
    ensures Successes(OksOf(ps, acked, e)) == |Epochs.Ackers(Listed(ps), acked, e)|
    ensures |Listed(ps)| == |ps|
    decreases |ps|
  {
    if ps == [] {
      assert Listed(ps) == {} && Epochs.Ackers(Listed(ps), acked, e) == {};
    } else {
      LastIsNew(ps);
      AckersLast(ps, acked, e);
      OksLast(ps, acked, e);
      var init, last := ps[..|ps| - 1], ps[|ps| - 1];
      assert last !in Epochs.Ackers(Listed(init), acked, e) && last !in Listed(init);
      hide NoDuplicates, OksOf, Listed, Successes, Epochs.Ackers;
      AcceptingAreAckers(init, acked, e);
    }
  }

  /** Counting acknowledgements decides exactly the quorum condition under which the counter advances. */
  lemma AcceptedIsQuorum(ps: seq<Epochs.PubId>, acked: set<(Epochs.PubId, Epoch)>, e: Epoch)
    requires NoDuplicates(ps)
    ensures Accepted(OksOf(ps, acked, e)) <==> Epochs.Majority(Listed(ps), Epochs.Ackers(Listed(ps), acked, e))
  {
    AcceptingAreAckers(ps, acked, e);
    SuccessesAreAccepting(OksOf(ps, acked, e));
  }

  /**
   * One pass of the update loop over listings of all publisher sets finds every set accepted if and only
   * if the protocol's counter may pass the epoch.
   */
  lemma PassIsAdvance(s: Epochs.State, listings: seq<seq<Epochs.PubId>>, e: Epoch)
    requires e in s.rounds
    requires forall i :: 0 <= i < |listings| ==> NoDuplicates(listings[i]) && Listed(listings[i]) in s.sets.Values
    requires forall k :: k in s.sets ==> exists i :: 0 <= i < |listings| && Listed(listings[i]) == s.sets[k]
    ensures (forall i :: 0 <= i < |listings| ==> Accepted(OksOf(listings[i], s.acked, e))) <==>
              Epochs.Enabled(s, Epochs.Advance(e))
  {
    hide Accepted, OksOf, NoDuplicates, Listed, Epochs.Majority, Epochs.Ackers;
    forall i | 0 <= i < |listings|
      ensures Accepted(OksOf(listings[i], s.acked, e)) <==>
                Epochs.Majority(Listed(listings[i]), Epochs.Ackers(Listed(listings[i]), s.acked, e))
    {
      AcceptedIsQuorum(listings[i], s.acked, e);
    }
  }

  // ---------------------------------------------------------------- counter and publisher

  datatype Error = EpochNotInitialized | ConditionFailed

  datatype Result<+T> = Ok(value: T) | Err(error: Error)

  /** The stored counter; 0 means not initialized (epoch/src/storage/in_memory.rs). */
  class EpochStorage {
    var epoch: Epoch

    constructor ()
      ensures epoch == 0
    {
      epoch := 0;
    }

    method InitializeEpoch()
      modifies this
      ensures epoch == if old(epoch) == 0 then 1 else old(epoch)
    {
      if epoch == 0 {
        epoch := 1;
      }
    }

    method ReadLatest() returns (res: Result<Epoch>)
      ensures res == if epoch == 0 then Err(EpochNotInitialized) else Ok(epoch)
    {
      if epoch == 0 {
        return Err(EpochNotInitialized);
      }
      res := Ok(epoch);
    }

    /** A compare-exchange that refuses to go backward: it succeeds at most once per expected value. */
    method ConditionalUpdate(newEpoch: Epoch, currentEpoch: Epoch) returns (res: Result<()>)
      modifies this
      ensures res.Ok? <==> newEpoch >= currentEpoch && old(epoch) == currentEpoch
      ensures epoch == if res.Ok? then newEpoch else old(epoch)
      ensures epoch >= old(epoch)
    {
      if newEpoch < currentEpoch {
        return Err(ConditionFailed);
      }
      if epoch == currentEpoch {
        epoch := newEpoch;
        res := Ok(());
      } else {
        res := Err(ConditionFailed);
      }
    }

    /** One iteration of the update loop: the counter moves by one, and only if every set was updated. */
    method UpdateIteration(sets: seq<seq<bool>>) returns (advanced: bool)
      modifies this
      ensures advanced <==>
              old(epoch) > 0 && forall i :: 0 <= i < |sets| ==> Accepted(sets[i])
      ensures epoch == if advanced then old(epoch) + 1 else old(epoch)
    {
      var latest := ReadLatest();
      if latest.Err? {
        return false;
      }
      for i := 0 to |sets|
        invariant epoch == old(epoch)
        invariant forall j :: 0 <= j < i ==> Accepted(sets[j])
      {
        var ok := UpdateEpoch(sets[i]);
        if !ok {
          return false;
        }
      }
      var res := ConditionalUpdate(latest.value + 1, latest.value);
      advanced := res.Ok?;
    }
  }

  /** A publisher; 0 means that its epoch is not known yet (epoch_publisher/src/server.rs). */
  class Publisher {
    var epoch: Epoch

    constructor ()
      ensures epoch == 0
    {
      epoch := 0;
    }

    method InitialEpochSync(stored: Epoch)
      modifies this
      ensures epoch == stored
    {
      epoch := stored;
    }

    /** The first half of SetEpoch: refused while the epoch is unknown, since the request may be stale. */
    method LoadEpoch() returns (current: Option<Epoch>)
      ensures current == if epoch == 0 then None else Some(epoch)
    {
      current := if epoch == 0 then None else Some(epoch);
    }

    /** The second half: acknowledged whether or not the exchange took place. */
    method ExchangeEpoch(newEpoch: Epoch, current: Epoch)
      modifies this
      ensures forall p: Epochs.Pub :: p.val == old(epoch) ==> epoch == Epochs.Exchange(p, newEpoch, current).val
      ensures epoch >= newEpoch <==> old(epoch) >= newEpoch || old(epoch) == current
      ensures epoch == if newEpoch > old(epoch) == current then newEpoch else old(epoch)
    {
      if newEpoch > current && epoch == current {
        epoch := newEpoch;
      }
    }

    method ReadEpoch() returns (reply: Option<Epoch>)
      ensures reply == if epoch == 0 then None else Some(epoch)
    {
      var e := epoch;
      reply := if e == 0 then None else Some(e);
    }
  }
}
