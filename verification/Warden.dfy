/** Assigning base ranges to range servers (warden/src/assignment_computation.rs). */
module Assignments {
  import opened Base

  /** Server names are strings compared byte by byte. */
  type Name = Bytes

  datatype RangeInfo = RangeInfo(keyspace: nat, id: RangeId, keys: KeyRange)

  datatype Assignment = Assignment(range: RangeInfo, assignee: Name)

  const MAX_VERSIONS_TO_KEEP := 5

  function RangesOf(xs: seq<Assignment>): seq<RangeInfo> {
    seq(|xs|, i requires 0 <= i < |xs| => xs[i].range)
  }

  /** The ranges assigned, with how often each is. */
  function Covers(xs: seq<Assignment>): multiset<RangeInfo>
    decreases |xs|
  {
    if xs == [] then multiset{} else Covers(xs[..|xs| - 1]) + multiset{xs[|xs| - 1].range}
  }

  /** The assignments to some servers, and those to all the others, in their order. */
  function Of(xs: seq<Assignment>, names: set<Name>): seq<Assignment>
    decreases |xs|
  {
    if xs == [] then []
    else
      var rest := Of(xs[..|xs| - 1], names);
      if xs[|xs| - 1].assignee in names then rest + [xs[|xs| - 1]] else rest
  }

  function Without(xs: seq<Assignment>, names: set<Name>): seq<Assignment>
    decreases |xs|
  {
    if xs == [] then []
    else
      var rest := Without(xs[..|xs| - 1], names);
      if xs[|xs| - 1].assignee in names then rest else rest + [xs[|xs| - 1]]
  }

  lemma CoversPush(xs: seq<Assignment>, x: Assignment)
    ensures Covers(xs + [x]) == Covers(xs) + multiset{x.range}
  {
    assert (xs + [x])[..|xs|] == xs;
  }

  lemma SumAssoc(a: multiset<RangeInfo>, b: multiset<RangeInfo>, c: multiset<RangeInfo>)
    ensures a + b + c == a + (b + c)
  {
  }

  lemma {:induction false} CoversConcat(xs: seq<Assignment>, ys: seq<Assignment>)
    ensures Covers(xs + ys) == Covers(xs) + Covers(ys)
    decreases |ys|
  {
    if ys == [] {
      assert xs + ys == xs;
    } else {
      var init, last := ys[..|ys| - 1], ys[|ys| - 1];
      CoversConcat(xs, init);
      assert (xs + ys)[..|xs + ys| - 1] == xs + init && (xs + ys)[|xs + ys| - 1] == last;
      SumAssoc(Covers(xs), Covers(init), multiset{last.range});
    }
  }

  lemma {:induction false} CoversRanges(xs: seq<Assignment>)
    ensures Covers(xs) == multiset(RangesOf(xs))
    decreases |xs|
  {
    if xs != [] {
      CoversRanges(xs[..|xs| - 1]);
      assert RangesOf(xs) == RangesOf(xs[..|xs| - 1]) + [xs[|xs| - 1].range];
    }
  }

  lemma OfPush(xs: seq<Assignment>, x: Assignment, names: set<Name>)
    ensures Of(xs + [x], names) == if x.assignee in names then Of(xs, names) + [x] else Of(xs, names)
    ensures Without(xs + [x], names) == if x.assignee in names then Without(xs, names) else Without(xs, names) + [x]
  {
    assert (xs + [x])[..|xs|] == xs;
  }

  lemma {:induction false} Split(xs: seq<Assignment>, names: set<Name>)
    ensures Covers(xs) == Covers(Of(xs, names)) + Covers(Without(xs, names))
    decreases |xs|
  {
    if xs != [] {
      var init, last := xs[..|xs| - 1], xs[|xs| - 1];
      Split(init, names);
      if last.assignee in names { CoversPush(Of(init, names), last); } else { CoversPush(Without(init, names), last); }
    }
  }

  /** Adding one more server to a selection adds exactly its assignments. */
  lemma {:induction false} OfInsert(xs: seq<Assignment>, names: set<Name>, n: Name)
    requires n !in names
    ensures multiset(Of(xs, names + {n})) == multiset(Of(xs, names)) + multiset(Of(xs, {n}))
    decreases |xs|
  {
    if xs != [] { OfInsert(xs[..|xs| - 1], names, n); }
  }

  lemma {:induction false} OfWithout(xs: seq<Assignment>, names: set<Name>, n: Name)
    ensures Of(Without(xs, names), {n}) == if n in names then [] else Of(xs, {n})
    decreases |xs|
  {
    if xs != [] {
      var init, last := xs[..|xs| - 1], xs[|xs| - 1];
      OfWithout(init, names, n);
      OfPush(Without(init, names), last, {n});
    }
  }

  lemma {:induction false} OfEverything(xs: seq<Assignment>, names: set<Name>)
    requires forall k :: 0 <= k < |xs| ==> xs[k].assignee in names
    ensures Of(xs, names) == xs
    decreases |xs|
  {
    if xs != [] { OfEverything(xs[..|xs| - 1], names); }
  }

  lemma {:induction false} OfMembers(xs: seq<Assignment>, names: set<Name>, x: Assignment)
    ensures x in Of(xs, names) <==> x in xs && x.assignee in names
    ensures x in Without(xs, names) <==> x in xs && x.assignee !in names
    decreases |xs|
  {
    if xs != [] {
      OfMembers(xs[..|xs| - 1], names, x);
      assert xs == xs[..|xs| - 1] + [xs[|xs| - 1]];
    }
  }

  lemma TakeOutOne(ys: seq<Assignment>, k: nat)
    requires k < |ys|
    ensures multiset(ys[..k] + ys[k + 1..]) == multiset(ys) - multiset{ys[k]}
  {
    assert ys == ys[..k] + [ys[k]] + ys[k + 1..];
  }

  lemma CoversMiddle(a: seq<Assignment>, y: Assignment, b: seq<Assignment>)
    ensures Covers(a + [y] + b) == Covers(a + b) + multiset{y.range}
  {
    CoversConcat(a + [y], b);
    CoversPush(a, y);
    CoversConcat(a, b);
    hide Covers;
    SumSwap(Covers(a), multiset{y.range}, Covers(b));
  }

  lemma TakeOut(ys: seq<Assignment>, k: nat)
    requires k < |ys|
    ensures multiset(ys[..k] + ys[k + 1..]) == multiset(ys) - multiset{ys[k]}
    ensures Covers(ys) == Covers(ys[..k] + ys[k + 1..]) + multiset{ys[k].range}
  {
    hide Covers;
    TakeOutOne(ys, k);
    CoversMiddle(ys[..k], ys[k], ys[k + 1..]);
    assert ys == ys[..k] + [ys[k]] + ys[k + 1..];
  }

  lemma SumSwap(a: multiset<RangeInfo>, b: multiset<RangeInfo>, c: multiset<RangeInfo>)
    ensures a + b + c == a + c + b
  {
  }

  /** Reordering assignments does not change which ranges they cover. */
  lemma {:induction false} Reordered(xs: seq<Assignment>, ys: seq<Assignment>)
    requires multiset(xs) == multiset(ys)
    ensures Covers(xs) == Covers(ys)
    decreases |xs|
  {
    if xs == [] {
      assert ys == [] by { assert |multiset(ys)| == 0; }
    } else {
      var init, last := xs[..|xs| - 1], xs[|xs| - 1];
      assert xs == init + [last];
      assert last in multiset(ys);
      var k :| 0 <= k < |ys| && ys[k] == last;
      TakeOut(ys, k);
      assert multiset(init) == multiset(xs) - multiset{last};
      Reordered(init, ys[..k] + ys[k + 1..]);
    }
  }

  // ---------------------------------------------------------------- choosing the least loaded server

  datatype Load = Load(count: nat, name: Name)

  predicate LoadLess(a: Load, b: Load) {
    a.count < b.count || (a.count == b.count && Less(a.name, b.name))
  }

  ghost predicate IsLeast(heap: multiset<Load>, l: Load) {
    l in heap && forall x :: x in heap ==> !LoadLess(x, l)
  }

  function Bump(heap: multiset<Load>, l: Load): multiset<Load> {
    heap - multiset{l} + multiset{Load(l.count + 1, l.name)}
  }

  function After(heap: multiset<Load>, picks: seq<Load>): multiset<Load>
    decreases |picks|
  {
    if picks == [] then heap else Bump(After(heap, picks[..|picks| - 1]), picks[|picks| - 1])
  }

  /** Every pick was least loaded when it was made. */
  ghost predicate LeastPicks(heap: multiset<Load>, picks: seq<Load>)
    decreases |picks|
  {
    picks == [] ||
    (LeastPicks(heap, picks[..|picks| - 1]) && IsLeast(After(heap, picks[..|picks| - 1]), picks[|picks| - 1]))
  }

  lemma LeastPicksPush(heap: multiset<Load>, picks: seq<Load>, l: Load)
    requires LeastPicks(heap, picks) && IsLeast(After(heap, picks), l)
    ensures LeastPicks(heap, picks + [l]) && After(heap, picks + [l]) == Bump(After(heap, picks), l)
  {
    assert (picks + [l])[..|picks|] == picks;
  }

  lemma BumpMembers(heap: multiset<Load>, l: Load, x: Load)
    requires x in Bump(heap, l)
    ensures x in heap || x == Load(l.count + 1, l.name)
  {
  }

  lemma LeastCount(heap: multiset<Load>, l: Load, x: Load)
    requires IsLeast(heap, l) && x in heap
    ensures l.count <= x.count
  {
  }

  /** No pick ever ends up more than one range above any entry of the heap. */
  lemma {:induction false} PicksStayLevel(heap: multiset<Load>, picks: seq<Load>, k: nat, x: Load)
    requires LeastPicks(heap, picks) && k < |picks| && x in After(heap, picks)
    ensures picks[k].count <= x.count
    decreases |picks|
  {
    hide Bump, IsLeast;
    var init, last := picks[..|picks| - 1], picks[|picks| - 1];
    var mid := After(heap, init);
    assert LeastPicks(heap, init) && IsLeast(mid, last);
    assert x in Bump(mid, last);
    BumpMembers(mid, last, x);
    LeastIsIn(mid, last);
    if k < |init| {
      assert picks[k] == init[k];
      PicksStayLevel(heap, init, k, if x in mid then x else last);
    } else if x in mid {
      LeastCount(mid, last, x);
    }
  }

  lemma LeastIsIn(heap: multiset<Load>, l: Load)
    requires IsLeast(heap, l)
    ensures l in heap
  {
  }

  /** Every entry carries the name of an entry the heap started with. */
  lemma {:induction false} EntriesKeepNames(heap: multiset<Load>, picks: seq<Load>, x: Load) returns (y: Load)
    requires LeastPicks(heap, picks) && x in After(heap, picks)
    ensures y in heap && y.name == x.name
    decreases |picks|
  {
    if picks == [] {
      y := x;
    } else {
      var init, last := picks[..|picks| - 1], picks[|picks| - 1];
      y := EntriesKeepNames(heap, init, if x in After(heap, init) then x else last);
    }
  }

  /** Ranges only go to servers that were in the heap. */
  lemma {:induction false} PickIsEntry(heap: multiset<Load>, picks: seq<Load>, k: nat) returns (y: Load)
    requires LeastPicks(heap, picks) && k < |picks|
    ensures y in heap && y.name == picks[k].name
    decreases |picks|
  {
    var init, last := picks[..|picks| - 1], picks[|picks| - 1];
    if k < |init| { y := PickIsEntry(heap, init, k); } else { y := EntriesKeepNames(heap, init, last); }
  }

  /**
   * What the heap starts from: every server named by the current assignment with its number of ranges,
   * every added server with none, and only if that gives nothing every ready server.
   */
  ghost predicate HeapOf(heap: multiset<Load>, cur: seq<Assignment>, added: set<Name>, ready: set<Name>) {
    forall x :: x in heap <==>
      || (Of(cur, {x.name}) != [] && x.count == |Of(cur, {x.name})|)
      || (x.count == 0 && x.name in added)
      || (cur == [] && added == {} && x.count == 0 && x.name in ready)
  }

  // ---------------------------------------------------------------- one round

  /**
   * One round: assignments of servers that stayed are kept, and everything unassigned or taken from
   * removed servers is given, one range after the other, to a least loaded entry of the heap.
   */
  ghost predicate Round(cur: seq<Assignment>, unassigned: seq<RangeInfo>, added: set<Name>, removed: set<Name>,
                        ready: set<Name>, updated: seq<Assignment>, next: seq<Assignment>)
  {
    && multiset(next) == multiset(Without(cur, removed)) + multiset(updated)
    && Covers(updated) == multiset(unassigned) + Covers(Of(cur, removed))
    && exists heap, picks :: Chosen(heap, picks, cur, added, ready, updated)
  }

  ghost predicate Chosen(heap: multiset<Load>, picks: seq<Load>, cur: seq<Assignment>, added: set<Name>,
      ready: set<Name>,
                         updated: seq<Assignment>)
  {
    && HeapOf(heap, cur, added, ready)
    && LeastPicks(heap, picks)
    && |picks| == |updated| && forall k :: 0 <= k < |picks| ==> updated[k].assignee == picks[k].name
  }

  /** Base ranges are split exactly between the assignment and the unassigned list. */
  ghost predicate Conserved(base: seq<RangeInfo>, cur: seq<Assignment>, unassigned: seq<RangeInfo>) {
    multiset(base) == Covers(cur) + multiset(unassigned)
  }

  lemma RoundConserves(base: seq<RangeInfo>, cur: seq<Assignment>, unassigned: seq<RangeInfo>, added: set<Name>,
                       removed: set<Name>, ready: set<Name>, updated: seq<Assignment>, next: seq<Assignment>)
    requires Conserved(base, cur, unassigned) && Round(cur, unassigned, added, removed, ready, updated, next)
    ensures Conserved(base, next, [])
  {
    Split(cur, removed);
    Reordered(next, Without(cur, removed) + updated);
    CoversConcat(Without(cur, removed), updated);
  }

  /** A range only moves if its server was removed, and only to a server of the heap. */
  lemma RoundMoves(cur: seq<Assignment>, unassigned: seq<RangeInfo>, added: set<Name>, removed: set<Name>,
                   ready: set<Name>, updated: seq<Assignment>, next: seq<Assignment>, x: Assignment)
    requires Round(cur, unassigned, added, removed, ready, updated, next)
    ensures x in cur && x.assignee !in removed ==> x in next
    ensures x in next ==>
              || (x in cur && x.assignee !in removed)
              || Of(cur, {x.assignee}) != [] || x.assignee in added || (cur == [] && added == {} && x.assignee in ready)
  {
    OfMembers(cur, removed, x);
    assert x in next <==> x in multiset(next);
    assert x in next <==> x in Without(cur, removed) || x in updated;
    hide Of, Without;
    if x in updated {
      var heap, picks :| Chosen(heap, picks, cur, added, ready, updated);
      var k :| 0 <= k < |updated| && updated[k] == x;
      var y := PickIsEntry(heap, picks, k);
    }
  }

  // ---------------------------------------------------------------- each range once

  /** No range id occurs twice. */
  ghost predicate Unique(ranges: multiset<RangeInfo>) {
    && (forall x, y :: x in ranges && y in ranges && x.id == y.id ==> x == y)
    && (forall x :: x in ranges ==> ranges[x] == 1)
  }

  lemma UniqueApart(rs: seq<RangeInfo>, i: nat, j: nat)
    requires Unique(multiset(rs)) && i < j < |rs|
    ensures rs[i].id != rs[j].id
  {
    assert rs[i] in multiset(rs) && rs[j] in multiset(rs);
    Twice(rs, i, j);
  }

  lemma Twice(rs: seq<RangeInfo>, i: nat, j: nat)
    requires i < j < |rs|
    ensures rs[i] == rs[j] ==> multiset(rs)[rs[i]] >= 2
  {
    assert rs == rs[..j] + rs[j..];
    assert rs[i] in rs[..j] && rs[j] in rs[j..];
    assert multiset(rs) == multiset(rs[..j]) + multiset(rs[j..]);
  }

  /** While the reported ranges have distinct ids, no range is handed to two servers. */
  lemma OneServerEach(base: seq<RangeInfo>, cur: seq<Assignment>, unassigned: seq<RangeInfo>, x: Assignment,
      y: Assignment)
    requires Conserved(base, cur, unassigned) && Unique(multiset(base))
    requires x in cur && y in cur && x.range.id == y.range.id
    ensures x == y
  {
    var rs := RangesOf(cur) + unassigned;
    CoversRanges(cur);
    assert multiset(rs) == multiset(base);
    hide Covers, Unique;
    var i :| 0 <= i < |cur| && cur[i] == x;
    var j :| 0 <= j < |cur| && cur[j] == y;
    assert rs[i] == x.range && rs[j] == y.range;
    if i < j { UniqueApart(rs, i, j); } else if j < i { UniqueApart(rs, j, i); }
  }

  /** A known range is either unassigned or assigned, and never both. */
  lemma AssignedOrWaiting(base: seq<RangeInfo>, cur: seq<Assignment>, unassigned: seq<RangeInfo>, r: RangeInfo)
    requires Conserved(base, cur, unassigned) && Unique(multiset(base)) && r in base
    ensures (r in unassigned) != (r in RangesOf(cur))
  {
    CoversRanges(cur);
    hide Covers, RangesOf;
    var rs := RangesOf(cur) + unassigned;
    assert multiset(rs) == multiset(base);
    assert r in multiset(base) && r in rs;
    assert multiset(rs) == multiset(RangesOf(cur)) + multiset(unassigned);
  }

  // ---------------------------------------------------------------- refreshing the base ranges

  function Ids(rs: seq<RangeInfo>): set<RangeId> {
    set r | r in rs :: r.id
  }

  /** The reported ranges whose id is not known yet. */
  function NewRanges(known: set<RangeId>, reported: seq<RangeInfo>): seq<RangeInfo>
    decreases |reported|
  {
    if reported == [] then []
    else
      var last := reported[|reported| - 1];
      NewRanges(known, reported[..|reported| - 1]) + if last.id in known then [] else [last]
  }

  lemma {:induction false} NewRangesMembers(known: set<RangeId>, reported: seq<RangeInfo>, r: RangeInfo)
    ensures r in NewRanges(known, reported) <==> r in reported && r.id !in known
    ensures multiset(NewRanges(known, reported))[r] <= multiset(reported)[r]
    decreases |reported|
  {
    if reported != [] {
      var init, last := reported[..|reported| - 1], reported[|reported| - 1];
      NewRangesMembers(known, init, r);
      assert reported == init + [last];
    }
  }

  /** A refresh that succeeds makes the known ids exactly the reported ones and keeps every range unique. */
  lemma RefreshTracksReport(base: seq<RangeInfo>, reported: seq<RangeInfo>)
    requires Ids(base) <= Ids(reported)
    ensures Ids(base + NewRanges(Ids(base), reported)) == Ids(reported)
    ensures Unique(multiset(base)) && Unique(multiset(reported)) ==>
              Unique(multiset(base + NewRanges(Ids(base), reported)))
  {
    var added := NewRanges(Ids(base), reported);
    var all := base + added;
    forall r ensures r in added <==> r in reported && r.id !in Ids(base) { NewRangesMembers(Ids(base), reported, r); }
    forall i | i in Ids(reported) ensures i in Ids(all) {
      var r :| r in reported && r.id == i;
      if i !in Ids(base) { assert r in all; } else {
        var b :| b in base && b.id == i;
        assert b in all;
      }
    }
    if Unique(multiset(base)) && Unique(multiset(reported)) {
      forall x | x in multiset(all) ensures multiset(all)[x] == 1 {
        NewRangesMembers(Ids(base), reported, x);
        assert x in base ==> x in multiset(base);
        assert x in reported ==> x in multiset(reported);
        assert x in added ==> x in multiset(added) && x !in base;
      }
      forall x: RangeInfo, y: RangeInfo | x in multiset(all) && y in multiset(all) && x.id == y.id ensures x == y {
        assert x in base ==> x in multiset(base) && x.id in Ids(base);
        assert y in base ==> y in multiset(base) && y.id in Ids(base);
        assert x in reported ==> x in multiset(reported);
        assert y in reported ==> y in multiset(reported);
      }
    }
  }

  // ---------------------------------------------------------------- versions

  /** Versions start from the milliseconds since the Unix epoch and count up. */
  type Version = nat

  /** The `c` versions up to and including `hi`. */
  function Window(hi: Version, c: nat): set<Version>
    requires c <= hi
    decreases c
  {
    if c == 0 then {} else Window(hi - 1, c - 1) + {hi}
  }

  lemma {:induction false} WindowMembers(hi: Version, c: nat)
    requires c <= hi
    ensures |Window(hi, c)| == c && forall v :: v in Window(hi, c) <==> hi - c < v <= hi
    decreases c
  {
    if c > 0 { WindowMembers(hi - 1, c - 1); }
  }

  /** At most one version more than the limit is kept, and they are consecutive up to the current one. */
  ghost predicate Windowed<T>(versions: map<Version, T>, current: Version) {
    |versions| <= MAX_VERSIONS_TO_KEEP + 1 && |versions| <= current && versions.Keys == Window(current, |versions|)
  }

  lemma WindowSets(hi: Version, c: nat)
    requires c <= hi
    ensures hi + 1 !in Window(hi, c)
    ensures Window(hi, c) + {hi + 1} == Window(hi + 1, c + 1)
    ensures c > 0 ==> hi in Window(hi, c) && hi + 1 - c in Window(hi, c)
    ensures forall v :: v in Window(hi, c) ==> hi + 1 - c <= v
  {
    WindowMembers(hi, c);
  }

  lemma {:induction false} WindowDropsOldest(hi: Version, c: nat)
    requires 0 < c <= hi
    ensures Window(hi, c) - {hi + 1 - c} == Window(hi, c - 1)
    decreases c
  {
    if c > 1 {
      WindowDropsOldest(hi - 1, c - 1);
      WindowMembers(hi - 1, c - 2);
      var before := Window(hi - 1, c - 1);
      assert Window(hi, c) == before + {hi} && Window(hi, c - 1) == Window(hi - 1, c - 2) + {hi};
      hide Window;
      assert before + {hi} - {hi + 1 - c} == (before - {hi + 1 - c}) + {hi};
    }
  }

  /** The version after the current one is new; adding it, and dropping the oldest one if need be, keeps the window. */
  lemma WindowMoves<T>(versions: map<Version, T>, current: Version, next: T)
    requires Windowed(versions, current)
    ensures current + 1 !in versions
    ensures |versions| <= MAX_VERSIONS_TO_KEEP ==> Windowed(versions[current + 1 := next], current + 1)
    ensures |versions| > MAX_VERSIONS_TO_KEEP ==>
              Windowed((versions - {current + 1 - |versions|})[current + 1 := next], current + 1)
  {
    hide Window;
    var c := |versions|;
    WindowSets(current, c);
    assert current + 1 !in versions.Keys;
    if c <= MAX_VERSIONS_TO_KEEP {
      KeysWindow(versions[current + 1 := next], current + 1, c + 1);
    } else {
      WindowDropsOldest(current, c);
      WindowSets(current, c - 1);
      KeysWindow((versions - {current + 1 - c})[current + 1 := next], current + 1, c);
    }
  }

  lemma KeysWindow<T>(versions: map<Version, T>, current: Version, c: nat)
    requires c <= current && versions.Keys == Window(current, c)
    ensures |versions| == c
  {
    WindowMembers(current, c);
    assert |versions| == |versions.Keys|;
  }

  /**
   * What the computation looks up: the current version is there as soon as there is any, and the oldest is the
   * least.
   */
  lemma WindowEnds<T>(versions: map<Version, T>, current: Version)
    requires Windowed(versions, current) && |versions| > 0
    ensures current in versions && current + 1 - |versions| in versions
    ensures forall v :: v in versions ==> current + 1 - |versions| <= v
  {
    WindowSets(current, |versions|);
    assert forall v :: v in versions <==> v in versions.Keys;
  }

  // ---------------------------------------------------------------- the durable range map

  type RowKey = (nat, RangeId)

  function KeyOf(r: RangeInfo): RowKey {
    (r.keyspace, r.id)
  }

  /** Rows are written one after the other, unconditionally. */
  function WriteRows(rows: map<RowKey, Name>, xs: seq<Assignment>): map<RowKey, Name>
    decreases |xs|
  {
    if xs == [] then rows
    else WriteRows(rows, xs[..|xs| - 1])[KeyOf(xs[|xs| - 1].range) := xs[|xs| - 1].assignee]
  }

  ghost predicate Agrees(rows: map<RowKey, Name>, cur: seq<Assignment>) {
    forall x :: x in cur ==> KeyOf(x.range) in rows && rows[KeyOf(x.range)] == x.assignee
  }

  lemma {:induction false} UnwrittenRow(rows: map<RowKey, Name>, xs: seq<Assignment>, key: RowKey)
    requires forall k :: 0 <= k < |xs| ==> KeyOf(xs[k].range) != key
    ensures key in WriteRows(rows, xs) <==> key in rows
    ensures key in rows ==> WriteRows(rows, xs)[key] == rows[key]
    decreases |xs|
  {
    if xs != [] { UnwrittenRow(rows, xs[..|xs| - 1], key); }
  }

  lemma {:induction false} WrittenRow(rows: map<RowKey, Name>, xs: seq<Assignment>, k: nat)
    requires k < |xs| && forall m :: k < m < |xs| ==> KeyOf(xs[m].range) != KeyOf(xs[k].range)
    ensures KeyOf(xs[k].range) in WriteRows(rows, xs) && WriteRows(rows, xs)[KeyOf(xs[k].range)] == xs[k].assignee
    decreases |xs|
  {
    if k < |xs| - 1 {
      var init := xs[..|xs| - 1];
      assert forall m :: 0 <= m < |init| ==> init[m] == xs[m];
      WrittenRow(rows, init, k);
    }
  }

  /** After a round that was written out completely, the durable map names every range's server. */
  lemma RoundAgrees(rows: map<RowKey, Name>, base: seq<RangeInfo>, cur: seq<Assignment>, unassigned: seq<RangeInfo>,
                    added: set<Name>, removed: set<Name>, ready: set<Name>, updated: seq<Assignment>,
                    next: seq<Assignment>)
    requires Agrees(rows, cur) && Conserved(base, cur, unassigned) && Unique(multiset(base))
    requires Round(cur, unassigned, added, removed, ready, updated, next)
    ensures Agrees(WriteRows(rows, updated), next)
  {
    var kept := Without(cur, removed);
    RoundUnique(base, cur, unassigned, added, removed, ready, updated, next);
    hide Unique, RangesOf, WriteRows, Without, Round, Conserved;
    forall x | x in next
      ensures KeyOf(x.range) in WriteRows(rows, updated) && WriteRows(rows, updated)[KeyOf(x.range)] == x.assignee
    {
      OfMembers(cur, removed, x);
      RowNamesServer(rows, kept, updated, x);
    }
  }

  lemma RoundUnique(base: seq<RangeInfo>, cur: seq<Assignment>, unassigned: seq<RangeInfo>, added: set<Name>,
                    removed: set<Name>, ready: set<Name>, updated: seq<Assignment>, next: seq<Assignment>)
    requires Conserved(base, cur, unassigned) && Unique(multiset(base))
    requires Round(cur, unassigned, added, removed, ready, updated, next)
    ensures Unique(multiset(RangesOf(Without(cur, removed) + updated)))
    ensures forall x :: x in next <==> x in Without(cur, removed) + updated
  {
    hide Without, Of, Covers, RangesOf, Chosen;
    var all := Without(cur, removed) + updated;
    RoundConserves(base, cur, unassigned, added, removed, ready, updated, next);
    assert multiset(next) == multiset(all);
    Reordered(next, all);
    CoversRanges(all);
    SameMembers(next, all);
  }

  lemma SameMembers(xs: seq<Assignment>, ys: seq<Assignment>)
    requires multiset(xs) == multiset(ys)
    ensures forall x :: x in xs <==> x in ys
  {
    forall x ensures x in xs <==> x in ys { assert x in multiset(xs) <==> x in multiset(ys); }
  }

  lemma RowNamesServer(rows: map<RowKey, Name>, kept: seq<Assignment>, updated: seq<Assignment>, x: Assignment)
    requires Unique(multiset(RangesOf(kept + updated))) && x in kept + updated
    requires x in kept ==> KeyOf(x.range) in rows && rows[KeyOf(x.range)] == x.assignee
    ensures KeyOf(x.range) in WriteRows(rows, updated) && WriteRows(rows, updated)[KeyOf(x.range)] == x.assignee
  {
    hide Unique, RangesOf, WriteRows;
    RowsApart(kept, updated, x);
    if x in kept {
      UnwrittenRow(rows, updated, KeyOf(x.range));
    } else {
      var k :| 0 <= k < |updated| && updated[k] == x;
      WrittenRow(rows, updated, k);
    }
  }

  lemma RowsApart(kept: seq<Assignment>, updated: seq<Assignment>, x: Assignment)
    requires Unique(multiset(RangesOf(kept + updated)))
    ensures x in kept ==> forall k :: 0 <= k < |updated| ==> KeyOf(updated[k].range) != KeyOf(x.range)
    ensures forall k, m :: 0 <= k < m < |updated| ==> KeyOf(updated[m].range) != KeyOf(updated[k].range)
  {
    var rs := RangesOf(kept + updated);
    if x in kept {
      var i :| 0 <= i < |kept| && kept[i] == x;
      forall k | 0 <= k < |updated| ensures KeyOf(updated[k].range) != KeyOf(x.range) {
        UniqueApart(rs, i, |kept| + k);
      }
    }
    forall k, m | 0 <= k < m < |updated| ensures KeyOf(updated[m].range) != KeyOf(updated[k].range) {
      UniqueApart(rs, |kept| + k, |kept| + m);
    }
  }

  ghost predicate SeparateRows(xs: seq<Assignment>) {
    forall k, m :: 0 <= k < m < |xs| ==> KeyOf(xs[k].range) != KeyOf(xs[m].range)
  }

  /**
   * A round that fails after writing `j` rows leaves the assignment in memory as it was. The durable map
   * still agrees with it exactly when none of those rows names another server for an assigned range.
   */
  lemma FailedRoundAgreesIff(rows: map<RowKey, Name>, cur: seq<Assignment>, updated: seq<Assignment>, j: nat)
    requires Agrees(rows, cur) && j <= |updated| && SeparateRows(updated)
    ensures Agrees(WriteRows(rows, updated[..j]), cur) <==>
            forall k, x :: 0 <= k < j && x in cur && KeyOf(x.range) == KeyOf(updated[k].range) ==>
              x.assignee == updated[k].assignee
  {
    var sent := updated[..j];
    forall k | 0 <= k < j
      ensures KeyOf(sent[k].range) in WriteRows(rows, sent)
      ensures WriteRows(rows, sent)[KeyOf(sent[k].range)] == updated[k].assignee
    {
      WrittenRow(rows, sent, k);
    }
    forall x | x in cur && forall k :: 0 <= k < j ==> KeyOf(sent[k].range) != KeyOf(x.range)
      ensures KeyOf(x.range) in WriteRows(rows, sent) && WriteRows(rows, sent)[KeyOf(x.range)] == x.assignee
    {
      UnwrittenRow(rows, sent, KeyOf(x.range));
    }
    hide WriteRows;
    assert forall k :: 0 <= k < j ==> sent[k] == updated[k];
  }

  /** A later round in which no server was removed repairs nothing: assigned ranges and their rows stay as they are. */
  lemma DriftStays(rows: map<RowKey, Name>, base: seq<RangeInfo>, cur: seq<Assignment>, unassigned: seq<RangeInfo>,
                   added: set<Name>, ready: set<Name>, updated: seq<Assignment>, next: seq<Assignment>, x: Assignment)
    requires Conserved(base, cur, unassigned) && Unique(multiset(base)) && x in cur
    requires Round(cur, unassigned, added, {}, ready, updated, next)
    ensures x in next
    ensures KeyOf(x.range) in WriteRows(rows, updated) <==> KeyOf(x.range) in rows
    ensures KeyOf(x.range) in rows ==> WriteRows(rows, updated)[KeyOf(x.range)] == rows[KeyOf(x.range)]
  {
    var kept := Without(cur, {});
    RoundUnique(base, cur, unassigned, added, {}, ready, updated, next);
    OfMembers(cur, {}, x);
    RowsApart(kept, updated, x);
    hide Without, WriteRows, Round;
    UnwrittenRow(rows, updated, KeyOf(x.range));
  }

  /**
   * Server `a` goes away and `b` comes. The round gives the range of `a` to `b`, writes that row and then
   * fails: memory keeps naming `a` and the durable map names `b`. The next round no longer sees `a` as
   * removed, so by `DriftStays` this stays.
   */
  lemma FailedRoundDrifts(r: RangeInfo, a: Name, b: Name)
    requires a != b
    ensures var cur, updated := [Assignment(r, a)], [Assignment(r, b)];
            var rows := map[KeyOf(r) := a];
            && Conserved([r], cur, []) && Agrees(rows, cur)
            && Round(cur, [], {b}, {a}, {b}, updated, updated)
            && !Agrees(WriteRows(rows, updated[..1]), cur)
  {
    var cur, updated := [Assignment(r, a)], [Assignment(r, b)];
    var rows := map[KeyOf(r) := a];
    OneAssignment(r, a);
    OneAssignment(r, b);
    assert Chosen(multiset{Load(1, a), Load(0, b)}, [Load(0, b)], cur, {b}, {b}, updated) by {
      NewServerIsChosen(r, a, b);
    }
    hide Of, Without, Covers, Chosen;
    assert updated[..1] == updated && updated[..0] == [];
    assert Assignment(r, a) in cur;
    assert WriteRows(rows, updated) == WriteRows(rows, [])[KeyOf(r) := b];
  }

  lemma OneAssignment(r: RangeInfo, a: Name)
    ensures var cur := [Assignment(r, a)];
            && Covers(cur) == multiset{r}
            && forall n: Name :: (Of(cur, {n}) == if n == a then cur else [])
                                 && (Without(cur, {n}) == if n == a then [] else cur)
  {
    var cur := [Assignment(r, a)];
    assert cur[..0] == [];
    forall n: Name
      ensures (Of(cur, {n}) == if n == a then cur else []) && (Without(cur, {n}) == if n == a then [] else cur)
    {
      assert Of(cur[..0], {n}) == [] && Without(cur[..0], {n}) == [];
    }
  }

  lemma NewServerIsChosen(r: RangeInfo, a: Name, b: Name)
    requires a != b
    ensures Chosen(multiset{Load(1, a), Load(0, b)}, [Load(0, b)], [Assignment(r, a)], {b}, {b}, [Assignment(r, b)])
  {
    var heap, picks := multiset{Load(1, a), Load(0, b)}, [Load(0, b)];
    OneAssignment(r, a);
    hide Of;
    assert HeapOf(heap, [Assignment(r, a)], {b}, {b});
    assert LeastPicks(heap, picks) by {
      LessTotal(b, b);
      assert picks[..0] == [];
    }
  }
}
