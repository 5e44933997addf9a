/** The assignment computation and the tables it owns (warden/src/assignment_computation.rs). */
module Wardens {
  import opened Base
  import opened Assignments

  const MIN_NUM_RANGE_SERVERS := 1

  datatype Identity = Identity(name: Name, zone: nat)

  function NamesOf(servers: set<Identity>): set<Name> {
    set s | s in servers :: s.name
  }

  /** The durable range map; a write of several rows can stop half way. */
  class RangeMap {
    var rows: map<RowKey, Name>

    /** Writes the rows in order; `failAt` says after how many of them an error is returned, if at all. */
    method UpdateRangeAssignments(xs: seq<Assignment>, failAt: Option<nat>) returns (ok: bool)
      modifies this
      ensures ok <==> failAt.None? || failAt.value > |xs|
      ensures rows == WriteRows(old(rows), if ok then xs else xs[..failAt.value])
    {
      var i := 0;
      while i < |xs| && failAt != Some(i)
        invariant i <= |xs| && (failAt.Some? ==> i <= failAt.value) && rows == WriteRows(old(rows), xs[..i])
      {
        rows := rows[KeyOf(xs[i].range) := xs[i].assignee];
        i := i + 1;
        assert xs[..i][..i - 1] == xs[..i - 1];
      }
      ok := failAt != Some(i);
      assert ok ==> xs[..i] == xs;
    }
  }

  // ---------------------------------------------------------------- grouping by server

  /** Each server with an assignment, and its ranges in order. */
  ghost predicate Grouped(owners: map<Name, seq<RangeInfo>>, xs: seq<Assignment>) {
    forall n: Name ::
      && (n in owners <==> Of(xs, {n}) != [])
      && (n in owners ==> owners[n] == RangesOf(Of(xs, {n})))
  }

  function Pushed(owners: map<Name, seq<RangeInfo>>, n: Name, r: RangeInfo): map<Name, seq<RangeInfo>> {
    owners[n := (if n in owners then owners[n] else []) + [r]]
  }

  lemma PushedGrouped(owners: map<Name, seq<RangeInfo>>, xs: seq<Assignment>, n: Name, r: RangeInfo)
    requires Grouped(owners, xs)
    ensures Grouped(Pushed(owners, n, r), xs + [Assignment(r, n)])
  {
    var x := Assignment(r, n);
    forall m: Name
      ensures m in Pushed(owners, n, r) <==> Of(xs + [x], {m}) != []
      ensures m in Pushed(owners, n, r) ==> Pushed(owners, n, r)[m] == RangesOf(Of(xs + [x], {m}))
    {
      OfPush(xs, x, {m});
      assert m in owners <==> Of(xs, {m}) != [];
      if m == n { assert RangesOf(Of(xs, {n}) + [x]) == RangesOf(Of(xs, {n})) + [r]; }
    }
  }

  /** Taking a server out leaves the groups of the others. */
  lemma RemovedGrouped(owners: map<Name, seq<RangeInfo>>, xs: seq<Assignment>, names: set<Name>, n: Name)
    requires Grouped(owners, Without(xs, names))
    ensures Grouped(owners - {n}, Without(xs, names + {n}))
    ensures n in names ==> n !in owners
    ensures n !in names ==> (n in owners <==> Of(xs, {n}) != []) && (n in owners ==> owners[n] == RangesOf(Of(xs, {n})))
  {
    OfWithout(xs, names, n);
    assert n in owners <==> Of(Without(xs, names), {n}) != [];
    forall m: Name
      ensures m in owners - {n} <==> Of(Without(xs, names + {n}), {m}) != []
      ensures m in owners - {n} ==> (owners - {n})[m] == RangesOf(Of(Without(xs, names + {n}), {m}))
    {
      OfWithout(xs, names, m);
      OfWithout(xs, names + {n}, m);
      assert m in owners <==> Of(Without(xs, names), {m}) != [];
    }
  }

  method Group(cur: seq<Assignment>) returns (owners: map<Name, seq<RangeInfo>>)
    ensures Grouped(owners, cur)
  {
    owners := map[];
    assert cur[..0] == [];
    for i := 0 to |cur|
      invariant Grouped(owners, cur[..i])
    {
      PushedGrouped(owners, cur[..i], cur[i].assignee, cur[i].range);
      assert cur[..i + 1] == cur[..i] + [Assignment(cur[i].range, cur[i].assignee)];
      owners := Pushed(owners, cur[i].assignee, cur[i].range);
    }
    assert cur[..|cur|] == cur;
  }

  /** The groups of the removed servers are added to the ranges to assign, in whatever order. */
  method ReleaseRemoved(grouped: map<Name, seq<RangeInfo>>, removed: set<Identity>, unassigned: seq<RangeInfo>,
                        ghost cur: seq<Assignment>)
    returns (owners: map<Name, seq<RangeInfo>>, todo: seq<RangeInfo>)
    requires Grouped(grouped, cur)
    ensures Grouped(owners, Without(cur, NamesOf(removed)))
    ensures multiset(todo) == multiset(unassigned) + Covers(Of(cur, NamesOf(removed)))
    ensures unassigned <= todo
  {
    owners, todo := grouped, unassigned;
    var left := removed;
    ghost var gone: set<Name> := {};
    NothingRemoved(cur);
    assert NamesOf({}) == {};
    hide Grouped, Of, Without, Covers, NamesOf, RangesOf;
    assert gone + NamesOf(left) == NamesOf(removed);
    while left != {}
      invariant left <= removed && gone + NamesOf(left) == NamesOf(removed)
      invariant Grouped(owners, Without(cur, gone))
      invariant multiset(todo) == multiset(unassigned) + Covers(Of(cur, gone))
      invariant unassigned <= todo
      decreases |left|
    {
      var s :| s in left;
      owners, todo := ReleaseOne(owners, todo, s.name, unassigned, cur, gone);
      NamesSplit(left, s);
      left := left - {s};
      gone := gone + {s.name};
    }
  }

  method ReleaseOne(grouped: map<Name, seq<RangeInfo>>, before: seq<RangeInfo>, n: Name,
      ghost unassigned: seq<RangeInfo>,
                    ghost cur: seq<Assignment>, ghost gone: set<Name>)
    returns (owners: map<Name, seq<RangeInfo>>, todo: seq<RangeInfo>)
    requires Grouped(grouped, Without(cur, gone))
    requires multiset(before) == multiset(unassigned) + Covers(Of(cur, gone))
    ensures Grouped(owners, Without(cur, gone + {n}))
    ensures multiset(todo) == multiset(unassigned) + Covers(Of(cur, gone + {n}))
    ensures before <= todo
  {
    RemovedGrouped(grouped, cur, gone, n);
    TodoGrows(cur, gone, n);
    hide Grouped, Of, Without, Covers, RangesOf;
    owners, todo := grouped - {n}, before;
    if n in grouped {
      todo := before + grouped[n];
      SumAssoc(multiset(unassigned), Covers(Of(cur, gone)), multiset(grouped[n]));
    }
  }

  lemma NothingRemoved(cur: seq<Assignment>)
    ensures Without(cur, {}) == cur && Covers(Of(cur, {})) == multiset{}
    decreases |cur|
  {
    if cur != [] { NothingRemoved(cur[..|cur| - 1]); }
  }

  lemma NamesSplit(servers: set<Identity>, s: Identity)
    requires s in servers
    ensures NamesOf(servers - {s}) + {s.name} == NamesOf(servers)
  {
    forall n | n in NamesOf(servers) ensures n in NamesOf(servers - {s}) + {s.name} {
      var t :| t in servers && t.name == n;
      assert t == s || t in servers - {s};
    }
  }

  lemma TodoGrows(cur: seq<Assignment>, gone: set<Name>, n: Name)
    ensures n in gone ==> gone + {n} == gone
    ensures n !in gone ==> Covers(Of(cur, gone + {n})) == Covers(Of(cur, gone)) + multiset(RangesOf(Of(cur, {n})))
    ensures Of(cur, {n}) == [] ==> Covers(Of(cur, gone + {n})) == Covers(Of(cur, gone))
  {
    if n !in gone {
      OfInsert(cur, gone, n);
      Reordered(Of(cur, gone + {n}), Of(cur, gone) + Of(cur, {n}));
      CoversConcat(Of(cur, gone), Of(cur, {n}));
      CoversRanges(Of(cur, {n}));
    }
  }

  // ---------------------------------------------------------------- the heap

  method BuildHeap(owners: map<Name, seq<RangeInfo>>, added: set<Identity>, ready: set<Identity>,
      ghost cur: seq<Assignment>)
    returns (heap: seq<Load>)
    requires Grouped(owners, cur) && ready != {}
    ensures heap != [] && HeapOf(multiset(heap), cur, NamesOf(added), NamesOf(ready))
  {
    heap := [];
    var names := owners.Keys;
    while names != {}
      invariant names <= owners.Keys
      invariant forall x :: x in heap <==> x.name in owners.Keys - names && x.count == |owners[x.name]|
      decreases |names|
    {
      var n :| n in names;
      heap := heap + [Load(|owners[n]|, n)];
      names := names - {n};
    }
    ghost var loads := heap;
    heap := PushServers(heap, added);
    if heap == [] {
      heap := PushServers(heap, ready);
    }
    HeapIsRight(owners, loads, heap, added, ready, cur);
  }

  method PushServers(start: seq<Load>, servers: set<Identity>) returns (heap: seq<Load>)
    ensures forall x :: x in heap <==> x in start || (x.count == 0 && x.name in NamesOf(servers))
    ensures heap == [] <==> start == [] && servers == {}
  {
    heap := start;
    var left := servers;
    ghost var gone: set<Name> := {};
    while left != {}
      invariant left <= servers && gone + NamesOf(left) == NamesOf(servers)
      invariant forall x :: x in heap <==> x in start || (x.count == 0 && x.name in gone)
      decreases |left|
    {
      var s :| s in left;
      NamesSplit(left, s);
      heap := heap + [Load(0, s.name)];
      left := left - {s};
      gone := gone + {s.name};
    }
    ServersInHeap(start, servers, heap);
  }

  lemma ServersInHeap(start: seq<Load>, servers: set<Identity>, heap: seq<Load>)
    requires forall x :: x in heap <==> x in start || (x.count == 0 && x.name in NamesOf(servers))
    ensures heap == [] <==> start == [] && servers == {}
  {
    if s :| s in servers { assert Load(0, s.name) in heap; }
    if start != [] { assert start[0] in heap; }
    if heap != [] { assert heap[0] in heap; }
  }

  lemma LoadsEmptyIff(owners: map<Name, seq<RangeInfo>>, loads: seq<Load>, cur: seq<Assignment>)
    requires Grouped(owners, cur)
    requires forall x :: x in loads <==> x.name in owners && x.count == |owners[x.name]|
    ensures loads == [] <==> cur == []
  {
    if loads != [] {
      assert loads[0] in loads;
      assert Of(cur, {loads[0].name}) != [];
    }
    if cur != [] {
      var n := cur[0].assignee;
      OfMembers(cur, {n}, cur[0]);
      assert n in owners;
      assert Load(|owners[n]|, n) in loads;
    }
  }

  lemma HeapIsRight(owners: map<Name, seq<RangeInfo>>, loads: seq<Load>, heap: seq<Load>, added: set<Identity>,
                    ready: set<Identity>, cur: seq<Assignment>)
    requires Grouped(owners, cur)
    requires forall x :: x in loads <==> x.name in owners && x.count == |owners[x.name]|
    requires forall x :: x in heap <==>
               || x in loads || (x.count == 0 && x.name in NamesOf(added))
               || (loads == [] && added == {} && x.count == 0 && x.name in NamesOf(ready))
    ensures HeapOf(multiset(heap), cur, NamesOf(added), NamesOf(ready))
  {
    LoadsEmptyIff(owners, loads, cur);
    assert added == {} <==> NamesOf(added) == {} by {
      if s :| s in added { assert s.name in NamesOf(added); }
    }
    forall x: Load ensures x in multiset(heap) <==>
      || (Of(cur, {x.name}) != [] && x.count == |Of(cur, {x.name})|)
      || (x.count == 0 && x.name in NamesOf(added))
      || (cur == [] && NamesOf(added) == {} && x.count == 0 && x.name in NamesOf(ready))
    {
      assert x.name in owners <==> Of(cur, {x.name}) != [];
      assert x in heap <==> x in multiset(heap);
    }
  }

  /** Takes a least entry out of the heap. */
  method PopLeast(heap: seq<Load>) returns (least: Load, rest: seq<Load>)
    requires heap != []
    ensures IsLeast(multiset(heap), least) && multiset(rest) == multiset(heap) - multiset{least}
    ensures forall x :: x in heap ==>
              least.count < x.count || (least.count == x.count && !Less(x.name, least.name))
  {
    var k := 0;
    LoadLessIrreflexive(heap[0]);
    hide LoadLess;
    for i := 1 to |heap|
      invariant k < i && forall j :: 0 <= j < i ==> !LoadLess(heap[j], heap[k])
    {
      if LoadLess(heap[i], heap[k]) {
        forall j | 0 <= j < i ensures !LoadLess(heap[j], heap[i]) { LoadLessTransitive(heap[j], heap[i], heap[k]); }
        LoadLessIrreflexive(heap[i]);
        k := i;
      }
    }
    least, rest := heap[k], heap[..k] + heap[k + 1..];
    LeastAt(heap, k);
  }

  lemma LeastAt(heap: seq<Load>, k: nat)
    requires k < |heap| && forall j :: 0 <= j < |heap| ==> !LoadLess(heap[j], heap[k])
    ensures IsLeast(multiset(heap), heap[k])
    ensures multiset(heap[..k] + heap[k + 1..]) == multiset(heap) - multiset{heap[k]}
  {
    hide LoadLess;
    assert heap == heap[..k] + [heap[k]] + heap[k + 1..];
    forall x | x in multiset(heap) ensures !LoadLess(x, heap[k]) {
      assert x in heap;
    }
  }

  lemma LoadLessTransitive(a: Load, b: Load, c: Load)
    requires LoadLess(b, c)
    ensures LoadLess(a, b) ==> LoadLess(a, c)
  {
    if a.count == b.count == c.count && Less(a.name, b.name) { LessTransitive(a.name, b.name, c.name); }
  }

  lemma LoadLessIrreflexive(a: Load)
    ensures !LoadLess(a, a)
  {
    LessTotal(a.name, a.name);
  }

  /** Gives out the ranges one by one; the heap is never empty at a pop. */
  method AssignAll(todo: seq<RangeInfo>, start: map<Name, seq<RangeInfo>>, initial: seq<Load>,
      ghost kept: seq<Assignment>)
    returns (owners: map<Name, seq<RangeInfo>>, updated: seq<Assignment>, ids: set<RangeId>, ghost picks: seq<Load>)
    requires Grouped(start, kept) && initial != []
    ensures Grouped(owners, kept + updated)
    ensures RangesOf(updated) == todo && ids == Ids(todo)
    ensures LeastPicks(multiset(initial), picks) && |picks| == |updated|
    ensures forall k :: 0 <= k < |picks| ==> updated[k].assignee == picks[k].name
  {
    owners, updated, ids, picks := start, [], {}, [];
    var heap := initial;
    assert kept + updated == kept;
    hide Grouped, Pushed, Picked, RangesOf, Ids;
    PickedNone(initial);
    TodoNone(todo);
    for i := 0 to |todo|
      invariant Grouped(owners, kept + updated)
      invariant |updated| == i && RangesOf(updated) == todo[..i] && ids == Ids(todo[..i])
      invariant Picked(initial, heap, picks, updated)
    {
      var range := todo[i];
      PickedHeap(initial, heap, picks, updated);
      var next, rest := PopLeast(heap);
      ids := ids + {range.id};
      owners := PushRange(owners, next.name, range, kept + updated);
      PickedStep(initial, heap, picks, updated, next, rest, range);
      heap := rest + [Load(next.count + 1, next.name)];
      picks := picks + [next];
      TodoStep(todo, i, kept, updated, next.name);
      updated := updated + [Assignment(range, next.name)];
    }
    assert todo[..|todo|] == todo;
    PickedMeans(initial, heap, picks, updated);
  }

  /** The heap is what the picks made of it, and each update names its pick. */
  ghost predicate Picked(initial: seq<Load>, heap: seq<Load>, picks: seq<Load>, updated: seq<Assignment>) {
    && heap != [] && LeastPicks(multiset(initial), picks) && multiset(heap) == After(multiset(initial), picks)
    && |picks| == |updated| && forall k :: 0 <= k < |picks| ==> updated[k].assignee == picks[k].name
  }

  lemma PickedNone(initial: seq<Load>)
    requires initial != []
    ensures Picked(initial, initial, [], [])
  {
  }

  lemma PickedHeap(initial: seq<Load>, heap: seq<Load>, picks: seq<Load>, updated: seq<Assignment>)
    requires Picked(initial, heap, picks, updated)
    ensures heap != []
  {
  }

  lemma PickedMeans(initial: seq<Load>, heap: seq<Load>, picks: seq<Load>, updated: seq<Assignment>)
    requires Picked(initial, heap, picks, updated)
    ensures LeastPicks(multiset(initial), picks) && |picks| == |updated|
    ensures forall k :: 0 <= k < |picks| ==> updated[k].assignee == picks[k].name
  {
  }

  lemma PickedStep(initial: seq<Load>, heap: seq<Load>, picks: seq<Load>, updated: seq<Assignment>, next: Load,
                   rest: seq<Load>, range: RangeInfo)
    requires Picked(initial, heap, picks, updated)
    requires IsLeast(multiset(heap), next) && multiset(rest) == multiset(heap) - multiset{next}
    ensures Picked(initial, rest + [Load(next.count + 1, next.name)], picks + [next],
                   updated + [Assignment(range, next.name)])
  {
    hide LeastPicks, After, IsLeast;
    LeastPicksPush(multiset(initial), picks, next);
  }

  lemma TodoNone(todo: seq<RangeInfo>)
    ensures RangesOf([]) == todo[..0] && Ids(todo[..0]) == {}
  {
  }

  method PushRange(owners: map<Name, seq<RangeInfo>>, n: Name, r: RangeInfo, ghost xs: seq<Assignment>)
    returns (more: map<Name, seq<RangeInfo>>)
    requires Grouped(owners, xs)
    ensures Grouped(more, xs + [Assignment(r, n)])
  {
    PushedGrouped(owners, xs, n, r);
    more := Pushed(owners, n, r);
  }

  lemma TodoStep(todo: seq<RangeInfo>, i: nat, kept: seq<Assignment>, updated: seq<Assignment>, n: Name)
    requires i < |todo| && RangesOf(updated) == todo[..i]
    ensures RangesOf(updated + [Assignment(todo[i], n)]) == todo[..i + 1]
    ensures kept + updated + [Assignment(todo[i], n)] == kept + (updated + [Assignment(todo[i], n)])
    ensures Ids(todo[..i + 1]) == Ids(todo[..i]) + {todo[i].id}
  {
    IdsPush(todo, i);
    assert RangesOf(updated + [Assignment(todo[i], n)]) == RangesOf(updated) + [todo[i]];
  }

  lemma IdsPush(rs: seq<RangeInfo>, i: nat)
    requires i < |rs|
    ensures Ids(rs[..i + 1]) == Ids(rs[..i]) + {rs[i].id}
  {
    assert rs[..i + 1] == rs[..i] + [rs[i]];
  }

  method GroupOf(infos: seq<RangeInfo>, n: Name) returns (group: seq<Assignment>)
    ensures |group| == |infos| && forall k :: 0 <= k < |infos| ==> group[k] == Assignment(infos[k], n)
  {
    group := [];
    for i := 0 to |infos|
      invariant |group| == i && forall k :: 0 <= k < i ==> group[k] == Assignment(infos[k], n)
    {
      group := group + [Assignment(infos[i], n)];
    }
  }

  /** Lists the groups server by server, in whatever order. */
  method Flatten(owners: map<Name, seq<RangeInfo>>, ghost xs: seq<Assignment>) returns (next: seq<Assignment>)
    requires Grouped(owners, xs)
    ensures multiset(next) == multiset(xs)
  {
    next := [];
    var left := owners.Keys;
    ghost var done: set<Name> := {};
    NoneOf(xs);
    while left != {}
      invariant left <= owners.Keys && done == owners.Keys - left
      invariant multiset(next) == multiset(Of(xs, done))
      decreases |left|
    {
      var n :| n in left;
      var group := GroupOf(owners[n], n);
      GroupIsOf(xs, n, group);
      OfInsert(xs, done, n);
      next := next + group;
      left := left - {n};
      done := done + {n};
    }
    forall k | 0 <= k < |xs| ensures xs[k].assignee in done {
      OfMembers(xs, {xs[k].assignee}, xs[k]);
      assert xs[k].assignee in owners;
    }
    OfEverything(xs, done);
  }

  lemma NoneOf(xs: seq<Assignment>)
    ensures Of(xs, {}) == []
    decreases |xs|
  {
    if xs != [] { NoneOf(xs[..|xs| - 1]); }
  }

  lemma GroupIsOf(xs: seq<Assignment>, n: Name, group: seq<Assignment>)
    requires |group| == |Of(xs, {n})|
    requires forall k :: 0 <= k < |group| ==> group[k] == Assignment(RangesOf(Of(xs, {n}))[k], n)
    ensures group == Of(xs, {n})
  {
    forall k | 0 <= k < |group| ensures group[k] == Of(xs, {n})[k] {
      OfMembers(xs, {n}, Of(xs, {n})[k]);
    }
  }

  /** Keeps the ranges whose id is not in the set. */
  method Retain(rs: seq<RangeInfo>, ids: set<RangeId>) returns (kept: seq<RangeInfo>)
    ensures kept == NewRanges(ids, rs)
  {
    kept := [];
    assert rs[..0] == [];
    for i := 0 to |rs|
      invariant kept == NewRanges(ids, rs[..i])
    {
      assert rs[..i + 1][..i] == rs[..i];
      if rs[i].id !in ids { kept := kept + [rs[i]]; }
    }
    assert rs[..|rs|] == rs;
  }

  lemma RetainsNothing(rs: seq<RangeInfo>, ids: set<RangeId>)
    requires forall r :: r in rs ==> r.id in ids
    ensures NewRanges(ids, rs) == []
    decreases |rs|
  {
    if rs != [] { RetainsNothing(rs[..|rs| - 1], ids); }
  }

  /** Everything up to the write: which range goes where, and the groups after it. */
  method PlanRound(cur: seq<Assignment>, unassigned: seq<RangeInfo>, added: set<Identity>, removed: set<Identity>,
                   ready: set<Identity>)
    returns (owners: map<Name, seq<RangeInfo>>, updated: seq<Assignment>, ids: set<RangeId>)
    requires ready != {}
    ensures var kept := Without(cur, NamesOf(removed));
            && Grouped(owners, kept + updated)
            && Round(cur, unassigned, NamesOf(added), NamesOf(removed), NamesOf(ready), updated, kept + updated)
    ensures forall r :: r in unassigned ==> r.id in ids
  {
    hide Grouped, Of, Without, Covers, NamesOf, HeapOf, LeastPicks;
    owners := Group(cur);
    var heap := BuildHeap(owners, added, ready, cur);
    var todo;
    owners, todo := ReleaseRemoved(owners, removed, unassigned, cur);
    ghost var picks;
    owners, updated, ids, picks := AssignAll(todo, owners, heap, Without(cur, NamesOf(removed)));
    CoversRanges(updated);
    assert Chosen(multiset(heap), picks, cur, NamesOf(added), NamesOf(ready), updated);
    forall r | r in unassigned ensures r.id in ids { assert r in todo; }
  }

  // ---------------------------------------------------------------- the service

  method Least(keys: set<Version>) returns (least: Version)
    requires keys != {}
    ensures least in keys && forall v :: v in keys ==> least <= v
  {
    least :| least in keys;
    var left := keys - {least};
    while left != {}
      invariant left <= keys && least in keys && forall v :: v in keys ==> v in left || least <= v
      decreases |left|
    {
      var v :| v in left;
      if v < least { least := v; }
      left := left - {v};
    }
  }

  class AssignmentComputation {
    var baseRanges: seq<RangeInfo>
    var rangeAssignments: map<Version, seq<Assignment>>
    var currentVersion: Version
    var readyRangeServers: map<Identity, nat>
    var unassignedBaseRanges: seq<RangeInfo>

    ghost function Current(): seq<Assignment>
      reads this
    {
      if currentVersion in rangeAssignments then rangeAssignments[currentVersion] else []
    }

    ghost predicate Valid()
      reads this
    {
      Windowed(rangeAssignments, currentVersion) && Conserved(baseRanges, Current(), unassignedBaseRanges)
    }

    constructor (now: Version)
      ensures Valid() && baseRanges == [] && rangeAssignments == map[] && readyRangeServers == map[]
      ensures currentVersion == now
    {
      baseRanges, rangeAssignments, currentVersion := [], map[], now;
      readyRangeServers, unassignedBaseRanges := map[], [];
    }

    /**
     * Takes in the reported base ranges. If a known range is missing from the report, or the new ones
     * cannot be stored, nothing changes.
     */
    method ReadBaseRanges(reported: seq<RangeInfo>, stored: bool) returns (ok: bool)
      requires Valid()
      modifies `baseRanges, `unassignedBaseRanges
      ensures Valid()
      ensures ok <==> stored && Ids(old(baseRanges)) <= Ids(reported)
      ensures !ok ==> baseRanges == old(baseRanges) && unassignedBaseRanges == old(unassignedBaseRanges)
      ensures ok ==> Ids(baseRanges) == Ids(reported)
      ensures ok ==> var fresh_ := NewRanges(Ids(old(baseRanges)), reported);
                     baseRanges == old(baseRanges) + fresh_
                     && unassignedBaseRanges == old(unassignedBaseRanges) + fresh_
    {
      hide Windowed, NewRanges;
      var known, listed := Ids(baseRanges), Ids(reported);
      for i := 0 to |baseRanges|
        invariant forall k :: 0 <= k < i ==> baseRanges[k].id in listed
      {
        if baseRanges[i].id !in listed {
          assert baseRanges[i] in baseRanges;
          assert baseRanges[i].id in known;
          return false;
        }
      }
      assert forall r :: r in baseRanges ==> r.id in listed;
      var found := Retain(reported, known);
      if !stored { return false; }
      RefreshTracksReport(baseRanges, reported);
      RefreshConserves(found);
      hide Ids, Conserved, Unique;
      baseRanges := baseRanges + found;
      unassignedBaseRanges := unassignedBaseRanges + found;
      ok := true;
    }

    lemma RefreshConserves(found: seq<RangeInfo>)
      requires Valid()
      ensures Conserved(baseRanges + found, Current(), unassignedBaseRanges + found)
    {
      assert multiset(baseRanges + found) == multiset(baseRanges) + multiset(found);
      assert multiset(unassignedBaseRanges + found) == multiset(unassignedBaseRanges) + multiset(found);
    }

    /** Too few servers, or nothing to do. */
    predicate Idle(prev: set<Identity>)
      reads this
    {
      || |readyRangeServers.Keys| < MIN_NUM_RANGE_SERVERS
      || (readyRangeServers.Keys == prev && unassignedBaseRanges == [])
    }

    /** What a round does to the assignment, given the servers of the previous round. */
    ghost predicate RoundFrom(prev: set<Identity>, updated: seq<Assignment>, next: seq<Assignment>)
      reads this
    {
      var ready := readyRangeServers.Keys;
      Round(Current(), unassignedBaseRanges, NamesOf(ready - prev), NamesOf(prev - ready), NamesOf(ready), updated,
            next)
    }

    /** One pass of the computation; `failAt` is where the write to the durable map fails, if it does. */
    method RunAssignmentComputation(prev: set<Identity>, store: RangeMap, failAt: Option<nat>)
      returns (ready: set<Identity>, updated: seq<Assignment>, ok: bool)
      requires Valid()
      modifies `rangeAssignments, `currentVersion, `unassignedBaseRanges, store
      ensures Valid() && ready == readyRangeServers.Keys
      ensures failAt.None? ==>
                (ok <==> readyRangeServers != map[]
                         && (readyRangeServers.Keys != prev || old(unassignedBaseRanges) != []))
      ensures old(Idle(prev)) ==> !ok && updated == [] && store.rows == old(store.rows)
      ensures !old(Idle(prev)) ==> (ok <==> failAt.None? || failAt.value > |updated|)
      ensures !old(Idle(prev)) ==>
                old(RoundFrom(prev, updated, Without(Current(), NamesOf(prev - readyRangeServers.Keys)) + updated))
      ensures !old(Idle(prev)) ==>
                store.rows == WriteRows(old(store.rows), if ok then updated else updated[..failAt.value])
      ensures !ok ==> rangeAssignments == old(rangeAssignments) && currentVersion == old(currentVersion)
      ensures !ok ==> unassignedBaseRanges == old(unassignedBaseRanges)
      ensures ok ==> currentVersion == old(currentVersion) + 1 && currentVersion in rangeAssignments
      ensures ok ==> |rangeAssignments| ==
                       if |old(rangeAssignments)| > MAX_VERSIONS_TO_KEEP then |old(rangeAssignments)|
                       else |old(rangeAssignments)| + 1
      ensures ok ==> unassignedBaseRanges == [] && var next := Current(); old(RoundFrom(prev, updated, next))
      ensures ok ==> forall v :: v in rangeAssignments && v != currentVersion ==>
                       v in old(rangeAssignments) && rangeAssignments[v] == old(rangeAssignments)[v]
    {
      hide Round, Conserved, Windowed, WriteRows, Without, NamesOf, Grouped, NewRanges, Covers, Of, RangesOf, Ids;
      ready := readyRangeServers.Keys;
      updated, ok := [], false;
      if |ready| < MIN_NUM_RANGE_SERVERS { return; }
      var added, removed := ready - prev, prev - ready;
      if added == {} && removed == {} && unassignedBaseRanges == [] { return; }
      var cur := [];
      if |rangeAssignments| > 0 {
        WindowEnds(rangeAssignments, currentVersion);
        cur := rangeAssignments[currentVersion];
      }
      assert cur == Current();
      var owners, ids;
      owners, updated, ids := PlanRound(cur, unassignedBaseRanges, added, removed, ready);
      ok := store.UpdateRangeAssignments(updated, failAt);
      if !ok { return; }
      var next := Flatten(owners, Without(cur, NamesOf(removed)) + updated);
      RetainsNothing(unassignedBaseRanges, ids);
      RoundReordered(prev, cur, updated, next);
      unassignedBaseRanges := Retain(unassignedBaseRanges, ids);
      Install(next);
    }

    lemma RoundReordered(prev: set<Identity>, cur: seq<Assignment>, updated: seq<Assignment>, next: seq<Assignment>)
      requires Valid() && cur == Current()
      requires RoundFrom(prev, updated, Without(cur, NamesOf(prev - readyRangeServers.Keys)) + updated)
      requires multiset(next) == multiset(Without(cur, NamesOf(prev - readyRangeServers.Keys)) + updated)
      ensures RoundFrom(prev, updated, next) && Conserved(baseRanges, next, [])
    {
      var ready := readyRangeServers.Keys;
      RoundConserves(baseRanges, cur, unassignedBaseRanges, NamesOf(ready - prev), NamesOf(prev - ready),
                     NamesOf(ready), updated, next);
    }

    /** Adds the next version, dropping the oldest one when there are too many. */
    method Install(next: seq<Assignment>)
      requires Windowed(rangeAssignments, currentVersion)
      modifies `rangeAssignments, `currentVersion
      ensures Windowed(rangeAssignments, currentVersion) && currentVersion == old(currentVersion) + 1
      ensures currentVersion in rangeAssignments && rangeAssignments[currentVersion] == next
      ensures |rangeAssignments| == if |old(rangeAssignments)| > MAX_VERSIONS_TO_KEEP then |old(rangeAssignments)|
                                    else |old(rangeAssignments)| + 1
      ensures forall v :: v in rangeAssignments && v != currentVersion ==>
                v in old(rangeAssignments) && rangeAssignments[v] == old(rangeAssignments)[v]
    {
      hide Windowed;
      WindowMoves(rangeAssignments, currentVersion, next);
      if |rangeAssignments| > MAX_VERSIONS_TO_KEEP {
        WindowEnds(rangeAssignments, currentVersion);
        var oldest := Least(rangeAssignments.Keys);
        assert oldest == currentVersion + 1 - |rangeAssignments|;
        rangeAssignments := rangeAssignments - {oldest};
      }
      assert currentVersion + 1 !in rangeAssignments;
      rangeAssignments := rangeAssignments[currentVersion + 1 := next];
      currentVersion := currentVersion + 1;
    }

    /**
     * The ranges of one server in one version. The update is labelled with the version that is current,
     * which is the one asked for exactly when that is current.
     */
    method GetAssignmentUpdate(name: Name, version: Version) returns (update: Option<(Version, seq<RowKey>)>)
      ensures update.None? <==> version !in rangeAssignments
      ensures update.Some? ==> update.value == (currentVersion, KeysOf(Of(rangeAssignments[version], {name})))
    {
      if version !in rangeAssignments { return None; }
      var all := rangeAssignments[version];
      var keys: seq<RowKey> := [];
      assert all[..0] == [];
      for i := 0 to |all|
        invariant keys == KeysOf(Of(all[..i], {name}))
      {
        assert all[..i + 1] == all[..i] + [all[i]];
        OfPush(all[..i], all[i], {name});
        if all[i].assignee == name { keys := keys + [KeyOf(all[i].range)]; }
      }
      assert all[..|all|] == all;
      update := Some((currentVersion, keys));
    }

    /** A connection replaces an older one of the same server, and is refused otherwise. */
    method RegisterRangeServer(id: Identity, epoch: nat) returns (ok: bool)
      modifies `readyRangeServers
      ensures ok <==> !(id in old(readyRangeServers) && old(readyRangeServers)[id] >= epoch)
      ensures readyRangeServers == if ok then old(readyRangeServers)[id := epoch] else old(readyRangeServers)
    {
      if id in readyRangeServers && readyRangeServers[id] >= epoch { return false; }
      readyRangeServers := readyRangeServers[id := epoch];
      ok := true;
    }

    /** A disconnect drops the server unless a newer connection has been registered since. */
    method NotifyRangeServerUnavailable(id: Identity, epoch: nat)
      modifies `readyRangeServers
      ensures readyRangeServers ==
              if id in old(readyRangeServers) && old(readyRangeServers)[id] <= epoch then old(readyRangeServers) - {id}
              else old(readyRangeServers)
    {
      if id in readyRangeServers && readyRangeServers[id] <= epoch {
        readyRangeServers := readyRangeServers - {id};
      }
    }
  }

  function KeysOf(xs: seq<Assignment>): seq<RowKey> {
    seq(|xs|, i requires 0 <= i < |xs| => KeyOf(xs[i].range))
  }

  /** In one version no range is listed for two servers, and once nothing waits every known range is listed. */
  lemma UpdatesPartition(base: seq<RangeInfo>, cur: seq<Assignment>, unassigned: seq<RangeInfo>)
    requires Conserved(base, cur, unassigned) && Unique(multiset(base))
    ensures forall n: Name, m: Name, key :: key in KeysOf(Of(cur, {n})) && key in KeysOf(Of(cur, {m})) ==> n == m
    ensures forall r :: r in base && r !in unassigned ==> exists n: Name :: KeyOf(r) in KeysOf(Of(cur, {n}))
  {
    hide Conserved, Unique;
    forall n: Name, m: Name, key | key in KeysOf(Of(cur, {n})) && key in KeysOf(Of(cur, {m})) ensures n == m {
      var i :| 0 <= i < |KeysOf(Of(cur, {n}))| && KeysOf(Of(cur, {n}))[i] == key;
      var j :| 0 <= j < |KeysOf(Of(cur, {m}))| && KeysOf(Of(cur, {m}))[j] == key;
      var x, y := Of(cur, {n})[i], Of(cur, {m})[j];
      OfMembers(cur, {n}, x);
      OfMembers(cur, {m}, y);
      OneServerEach(base, cur, unassigned, x, y);
    }
    forall r | r in base && r !in unassigned ensures exists n: Name :: KeyOf(r) in KeysOf(Of(cur, {n})) {
      AssignedOrWaiting(base, cur, unassigned, r);
      var i :| 0 <= i < |RangesOf(cur)| && RangesOf(cur)[i] == r;
      var n := cur[i].assignee;
      OfMembers(cur, {n}, cur[i]);
      var k :| 0 <= k < |Of(cur, {n})| && Of(cur, {n})[k] == cur[i];
      assert KeysOf(Of(cur, {n}))[k] == KeyOf(r);
    }
  }
}
