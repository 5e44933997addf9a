/** Epoch lease arithmetic of a range (rangeserver/src/range_manager/impl.rs, load and renewal). */
module Leasing {
  import opened Base

  datatype Lease = Lease(lo: Epoch, hi: Epoch)

  predicate Covers(l: Lease, e: Epoch) {
    l.lo <= e <= l.hi
  }

  /** A first lease under a new leader: past the epoch read and past the previous lease. */
  function LoadLease(prev: Lease, epoch: Epoch, n: nat): Lease {
    var lo := Max(epoch + 1, prev.hi + 1);
    Lease(lo, lo + n)
  }

  /** Renewal is skipped while more than two lease lengths are left. */
  predicate DueForRenewal(prev: Lease, epoch: Epoch, n: nat) {
    (if prev.hi <= epoch then 0 else prev.hi - epoch) <= 2 * n
  }

  /** The renewed lease: merged with the old one when it continues it. */
  function RenewLease(prev: Lease, epoch: Epoch, n: nat): Lease {
    var next := LoadLease(prev, epoch, n);
    if next.lo - prev.hi == 1 then Lease(prev.lo, next.hi) else next
  }

  /** A first lease is the next n + 1 epochs that are past the epoch read and past the previous lease. */
  lemma LoadLeaseExact(prev: Lease, epoch: Epoch, n: nat)
    ensures var l := LoadLease(prev, epoch, n);
            && l.hi - l.lo == n
            && (forall e: Epoch :: Covers(l, e) <==> epoch < e && prev.hi < e && e <= l.hi)
            && (epoch + 1 == l.lo || prev.hi + 1 == l.lo)
  {
  }

  /**
   * The renewal threshold: with 2n epochs left a lease is renewed, to the very end of what RenewalBounds
   * allows; with one more it is not.
   */
  lemma RenewalThreshold(prev: Lease, epoch: Epoch, n: nat)
    ensures DueForRenewal(prev, epoch, n) <==> prev.hi <= epoch + 2 * n
    ensures prev.hi == epoch + 2 * n ==> RenewLease(prev, epoch, n).hi == epoch + 3 * n + 1
  {
  }

  /**
   * One renewal: never shrinks below the old upper bound, covers exactly the fresh interval together
   * with the old one when the two touch, and ends at most 3n+1 epochs past the epoch it read.
   */
  lemma RenewalBounds(prev: Lease, epoch: Epoch, n: nat)
    requires prev.lo <= prev.hi && DueForRenewal(prev, epoch, n)
    ensures var l := RenewLease(prev, epoch, n);
            && l.lo <= l.hi
            && prev.lo <= l.lo && prev.hi < l.hi
            && epoch + n < l.hi <= epoch + 3 * n + 1
            && (forall e :: Covers(l, e) <==>
                            Covers(LoadLease(prev, epoch, n), e) || (epoch <= prev.hi && Covers(prev, e)))
  {
    var l := RenewLease(prev, epoch, n);
    var next := LoadLease(prev, epoch, n);
    assert next.lo - prev.hi == 1 <==> epoch <= prev.hi;
    forall e ensures Covers(l, e) <==> Covers(next, e) || (epoch <= prev.hi && Covers(prev, e)) {
    }
  }

  /** The renewal loop: one epoch read per round, rounds that are not due leave the lease alone. */
  function Renewals(prev: Lease, epochs: seq<Epoch>, n: nat): Lease
    decreases |epochs|
  {
    if epochs == [] then prev
    else
      var before := Renewals(prev, epochs[..|epochs| - 1], n);
      var epoch := epochs[|epochs| - 1];
      if DueForRenewal(before, epoch, n) then RenewLease(before, epoch, n) else before
  }

  /**
   * Over unboundedly many rounds the lease stays well formed, only grows upward, and does not run ahead of the
   * epochs read.
   */
  lemma {:induction false} RenewalsBounds(prev: Lease, epochs: seq<Epoch>, n: nat, top: Epoch)
    requires prev.lo <= prev.hi <= top + 3 * n + 1
    requires forall i :: 0 <= i < |epochs| ==> epochs[i] <= top
    ensures var l := Renewals(prev, epochs, n);
            && l.lo <= l.hi && prev.lo <= l.lo && prev.hi <= l.hi
            && l.hi <= top + 3 * n + 1
            && forall i :: 0 <= i < |epochs| ==> epochs[i] + n < l.hi
    decreases |epochs|
  {
    if epochs != [] {
      var init := epochs[..|epochs| - 1];
      RenewalsBounds(prev, init, n, top);
      var before := Renewals(prev, init, n);
      var epoch := epochs[|epochs| - 1];
      if DueForRenewal(before, epoch, n) { RenewalBounds(before, epoch, n); }
      assert forall i :: 0 <= i < |init| ==> init[i] == epochs[i];
    }
  }
}
