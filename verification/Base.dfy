/** Types shared by every component of the transaction layer. */
module Base {

  datatype Option<+T> = None | Some(value: T)

  newtype byte = x: int | 0 <= x < 256

  /** Keys and values are byte strings. */
  type Bytes = seq<byte>

  /** Transaction and range ids are UUIDs, compared as 128-bit numbers; only their order matters here. */
  type TxId = nat
  type RangeId = nat

  type Epoch = nat

  function Max(a: nat, b: nat): (m: nat)
    ensures m >= a && m >= b && (m == a || m == b)
  {
    if a < b then b else a
  }

  /** Byte strings compare lexicographically. */
  predicate Less(a: Bytes, b: Bytes)
    decreases |a|
  {
    b != [] && (a == [] || a[0] < b[0] || (a[0] == b[0] && Less(a[1..], b[1..])))
  }

  lemma {:induction false} LessTotal(a: Bytes, b: Bytes)
    ensures Less(a, b) || a == b || Less(b, a)
    ensures !(Less(a, b) && Less(b, a)) && (Less(a, b) ==> a != b)
    decreases |a|
  {
    if a != [] && b != [] && a[0] == b[0] {
      LessTotal(a[1..], b[1..]);
      assert a[1..] == b[1..] ==> a == [a[0]] + a[1..] == b;
    }
  }

  lemma {:induction false} LessTransitive(a: Bytes, b: Bytes, c: Bytes)
    requires Less(a, b) && Less(b, c)
    ensures Less(a, c)
    decreases |a|
  {
    if a != [] && a[0] == b[0] && b[0] == c[0] {
      LessTransitive(a[1..], b[1..], c[1..]);
    }
  }

  /** The order of byte strings: the first difference decides, and a prefix comes first. */
  lemma {:induction false} LessAtDifference(a: Bytes, b: Bytes)
    ensures Less(a, b) <==>
              exists i :: 0 <= i <= |a| && i < |b| && a[..i] == b[..i] && (i == |a| || a[i] < b[i])
    decreases |a|
  {
    forall i | 0 < i <= |a| && i < |b| && a[..i] == b[..i] ensures a[0] == b[0] {
      assert a[..i][0] == b[..i][0];
    }
    assert a[..0] == b[..0];
    if a != [] && b != [] && a[0] == b[0] {
      LessAtDifference(a[1..], b[1..]);
      if Less(a, b) {
        var i :| 0 <= i <= |a[1..]| && i < |b[1..]| && a[1..][..i] == b[1..][..i]
                 && (i == |a[1..]| || a[1..][i] < b[1..][i]);
        assert a[..i + 1] == [a[0]] + a[1..][..i] && b[..i + 1] == [b[0]] + b[1..][..i];
      }
      forall i | 0 <= i <= |a| && i < |b| && a[..i] == b[..i] && (i == |a| || a[i] < b[i]) ensures Less(a, b) {
        assert a[1..][..i - 1] == a[..i][1..] && b[1..][..i - 1] == b[..i][1..];
      }
    }
  }

  /** Bounds of a range's keys, lower inclusive and upper exclusive; a missing bound does not restrict. */
  datatype KeyRange = KeyRange(lower: Option<Bytes>, upper: Option<Bytes>)

  predicate Includes(kr: KeyRange, k: Bytes) {
    && (kr.lower.Some? ==> !Less(k, kr.lower.value))
    && (kr.upper.Some? ==> Less(k, kr.upper.value))
  }

  /**
   * Splitting a range at a key within it leaves every key in exactly one of the two halves, the split key
   * in the upper one; an unbounded range has every key.
   */
  lemma SplitRange(kr: KeyRange, m: Bytes, k: Bytes)
    requires Includes(kr, m)
    ensures var low, high := KeyRange(kr.lower, Some(m)), KeyRange(Some(m), kr.upper);
            && (Includes(kr, k) <==> Includes(low, k) || Includes(high, k))
            && !(Includes(low, k) && Includes(high, k))
            && !Includes(low, m) && Includes(high, m)
    ensures kr.lower.None? && kr.upper.None? ==> Includes(kr, k)
  {
    LessTotal(k, m);
    LessTotal(m, m);
    if kr.lower.Some? {
      LessTotal(m, kr.lower.value);
      LessTotal(k, kr.lower.value);
      if Less(k, kr.lower.value) && Less(kr.lower.value, m) { LessTransitive(k, kr.lower.value, m); }
      if Less(kr.lower.value, m) && Less(m, k) { LessTransitive(kr.lower.value, m, k); }
    }
    if kr.upper.Some? {
      if Less(k, m) { LessTransitive(k, m, kr.upper.value); }
    }
  }
}
