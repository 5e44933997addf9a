/** What a range server makes of the warden's updates (rangeserver/src/warden_handler.rs). */
module WardenUpdates {
  import opened Base

  datatype FullRangeId = FullRangeId(keyspace: nat, id: RangeId)

  datatype Update =
    | FullAssignment(ranges: seq<FullRangeId>)
    | Incremental(load: seq<FullRangeId>, unload: seq<FullRangeId>)

  datatype Event = LoadRange(range: FullRangeId) | UnloadRange(range: FullRangeId)

  function SetOf(rs: seq<FullRangeId>): set<FullRangeId> {
    set r | r in rs
  }

  /** The ranges a server should hold after an update: unloading wins over loading. */
  function Target(held: set<FullRangeId>, u: Update): set<FullRangeId> {
    match u
    case FullAssignment(ranges) => SetOf(ranges)
    case Incremental(load, unload) => held + SetOf(load) - SetOf(unload)
  }

  function TargetAll(held: set<FullRangeId>, us: seq<Update>): set<FullRangeId>
    decreases |us|
  {
    if us == [] then held else Target(TargetAll(held, us[..|us| - 1]), us[|us| - 1])
  }

  /** The update asks for the range, or asks for it to go: a full update does one or the other of every range. */
  predicate Grants(u: Update, r: FullRangeId) {
    match u
    case FullAssignment(ranges) => r in ranges
    case Incremental(load, unload) => r in load && r !in unload
  }

  predicate Revokes(u: Update, r: FullRangeId) {
    match u
    case FullAssignment(ranges) => r !in ranges
    case Incremental(_, unload) => r in unload
  }

  /** An update decides on the ranges it mentions, and leaves the others as they were. */
  lemma TargetByMention(held: set<FullRangeId>, u: Update, r: FullRangeId)
    ensures r in Target(held, u) <==> Grants(u, r) || (r in held && !Revokes(u, r))
    ensures !(Grants(u, r) && Revokes(u, r))
  {
  }

  /** Over any updates the last one that mentions a range decides whether it is assigned. */
  lemma {:induction false} LastMentionWins(us: seq<Update>, r: FullRangeId)
    ensures r in TargetAll({}, us) <==>
              exists i :: 0 <= i < |us| && Grants(us[i], r) && forall j :: i < j < |us| ==> !Revokes(us[j], r)
    decreases |us|
  {
    if us != [] {
      var n := |us| - 1;
      var init := us[..n];
      LastMentionWins(init, r);
      TargetByMention(TargetAll({}, init), us[n], r);
      hide Grants, Revokes, Target;
      if r in TargetAll({}, init) && !Revokes(us[n], r) {
        var i :| 0 <= i < n && Grants(init[i], r) && forall j :: i < j < n ==> !Revokes(init[j], r);
        assert Grants(us[i], r) && forall j :: i < j < |us| ==> !Revokes(us[j], r);
      }
      forall i | 0 <= i < |us| && Grants(us[i], r) && (forall j :: i < j < |us| ==> !Revokes(us[j], r))
        ensures r in TargetAll({}, us)
      {
        if i < n { assert Grants(init[i], r) && forall j :: i < j < n ==> !Revokes(init[j], r); }
      }
    }
  }

  function Step(loaded: set<FullRangeId>, e: Event): set<FullRangeId> {
    if e.LoadRange? then loaded + {e.range} else loaded - {e.range}
  }

  /** An event that changes something: a load of a range not loaded, or an unload of one that is. */
  predicate Changes(loaded: set<FullRangeId>, e: Event) {
    e.LoadRange? <==> e.range !in loaded
  }

  /** The events taken at their word: what is loaded after them. */
  function Replay(loaded: set<FullRangeId>, events: seq<Event>): set<FullRangeId>
    decreases |events|
  {
    if events == [] then loaded else Step(Replay(loaded, events[..|events| - 1]), events[|events| - 1])
  }

  /** Every event changes something, so that per range loads and unloads alternate. */
  ghost predicate Alternates(loaded: set<FullRangeId>, events: seq<Event>)
    decreases |events|
  {
    events == [] ||
    (Alternates(loaded, events[..|events| - 1])
     && Changes(Replay(loaded, events[..|events| - 1]), events[|events| - 1]))
  }

  lemma ReplayPush(loaded: set<FullRangeId>, events: seq<Event>, e: Event)
    ensures Replay(loaded, events + [e]) == Step(Replay(loaded, events), e)
    ensures Alternates(loaded, events + [e]) <==> Alternates(loaded, events) && Changes(Replay(loaded, events), e)
  {
    assert (events + [e])[..|events|] == events;
  }

  lemma {:induction false} ReplayConcat(loaded: set<FullRangeId>, a: seq<Event>, b: seq<Event>)
    ensures Replay(loaded, a + b) == Replay(Replay(loaded, a), b)
    ensures Alternates(loaded, a + b) <==> Alternates(loaded, a) && Alternates(Replay(loaded, a), b)
    decreases |b|
  {
    if b == [] {
      assert a + b == a;
    } else {
      var init, last := b[..|b| - 1], b[|b| - 1];
      ReplayConcat(loaded, a, init);
      ReplayPush(loaded, a + init, last);
      ReplayPush(Replay(loaded, a), init, last);
      assert a + b == a + init + [last] && b == init + [last];
    }
  }

  // ---------------------------------------------------------------- events of one range

  /** The events about one range, as whether each is a load. */
  function About(r: FullRangeId, events: seq<Event>): seq<bool>
    decreases |events|
  {
    if events == [] then []
    else
      var before := About(r, events[..|events| - 1]);
      if events[|events| - 1].range == r then before + [events[|events| - 1].LoadRange?] else before
  }

  /** From nothing loaded: load, unload, load, and so on; the range is loaded exactly after an odd number of them. */
  lemma {:induction false} LoadsAndUnloadsAlternate(r: FullRangeId, events: seq<Event>)
    requires Alternates({}, events)
    ensures forall k :: 0 <= k < |About(r, events)| ==> (About(r, events)[k] <==> k % 2 == 0)
    ensures r in Replay({}, events) <==> |About(r, events)| % 2 == 1
    decreases |events|
  {
    if events != [] { LoadsAndUnloadsAlternate(r, events[..|events| - 1]); }
  }

  // ---------------------------------------------------------------- one batch after another

  /** A batch of events takes the loaded ranges where an update wants them, without repeating itself. */
  ghost predicate Carries(loaded: set<FullRangeId>, u: Update, events: seq<Event>) {
    Alternates(loaded, events) && Replay(loaded, events) == Target(loaded, u)
  }

  function Joined(batches: seq<seq<Event>>): seq<Event>
    decreases |batches|
  {
    if batches == [] then [] else Joined(batches[..|batches| - 1]) + batches[|batches| - 1]
  }

  /** Over any sequence of updates, the events replayed from nothing give the assigned ranges and alternate. */
  lemma {:induction false} UpdatesReplay(us: seq<Update>, batches: seq<seq<Event>>)
    requires |us| == |batches|
    requires forall i :: 0 <= i < |us| ==> Carries(TargetAll({}, us[..i]), us[i], batches[i])
    ensures Replay({}, Joined(batches)) == TargetAll({}, us)
    ensures Alternates({}, Joined(batches))
    decreases |us|
  {
    if us != [] {
      var n := |us| - 1;
      forall i | 0 <= i < n ensures Carries(TargetAll({}, us[..n][..i]), us[..n][i], batches[..n][i]) {
        assert us[..n][..i] == us[..i];
      }
      UpdatesReplay(us[..n], batches[..n]);
      ReplayConcat({}, Joined(batches[..n]), batches[n]);
    }
  }

  lemma TargetAllConcat(held: set<FullRangeId>, us: seq<Update>, later: seq<Update>)
    ensures TargetAll(held, us + later) == TargetAll(TargetAll(held, us), later)
    decreases |later|
  {
    if later == [] {
      assert us + later == us;
    } else {
      var init := later[..|later| - 1];
      TargetAllConcat(held, us, init);
      assert (us + later)[..|us + later| - 1] == us + init;
    }
  }

  /**
   * A full update makes up for lost ones: two servers that got whatever updates before it, and the same
   * ones after it, have loaded the same ranges if each follows its own events from nothing.
   */
  lemma FullUpdateResets(us: seq<Update>, us': seq<Update>, ranges: seq<FullRangeId>, later: seq<Update>,
                         batches: seq<seq<Event>>, batches': seq<seq<Event>>)
    requires var all := us + [FullAssignment(ranges)] + later;
             |all| == |batches| && forall i :: 0 <= i < |all| ==> Carries(TargetAll({}, all[..i]), all[i], batches[i])
    requires var all := us' + [FullAssignment(ranges)] + later;
             |all| == |batches'| && forall i :: 0 <= i < |all| ==> Carries(TargetAll({}, all[..i]), all[i], batches'[i])
    ensures Replay({}, Joined(batches)) == Replay({}, Joined(batches')) == TargetAll(SetOf(ranges), later)
  {
    hide Carries, Replay, Joined;
    UpdatesReplay(us + [FullAssignment(ranges)] + later, batches);
    UpdatesReplay(us' + [FullAssignment(ranges)] + later, batches');
    AfterFull(us, ranges, later);
    AfterFull(us', ranges, later);
  }

  lemma AfterFull(us: seq<Update>, ranges: seq<FullRangeId>, later: seq<Update>)
    ensures TargetAll({}, us + [FullAssignment(ranges)] + later) == TargetAll(SetOf(ranges), later)
  {
    var all := us + [FullAssignment(ranges)];
    TargetAllConcat({}, all, later);
    assert all[..|us|] == us;
  }
}

module WardenHandlers {
  import opened WardenUpdates

  /** The server's side of the stream: the assigned ranges and the events sent so far. */
  class WardenHandler {
    var assignedRanges: set<FullRangeId>
    var events: seq<Event>

    ghost predicate Valid()
      reads this
    {
      Alternates({}, events) && Replay({}, events) == assignedRanges
    }

    constructor ()
      ensures Valid() && assignedRanges == {} && events == []
    {
      assignedRanges, events := {}, [];
    }

    method Send(e: Event)
      requires Alternates({}, events)
      requires Changes(Replay({}, events), e)
      modifies `events
      ensures events == old(events) + [e] && Alternates({}, events)
      ensures Replay({}, events) == Step(old(Replay({}, events)), e)
    {
      ReplayPush({}, events, e);
      events := events + [e];
    }

    /** Only ranges that change are reported; the assigned set becomes what the update asks for. */
    method ProcessWardenUpdate(update: Update)
      requires Valid()
      modifies this
      ensures Valid() && assignedRanges == Target(old(assignedRanges), update)
      ensures update.FullAssignment? ==> forall r :: r in assignedRanges <==> r in update.ranges
      ensures update.Incremental? ==>
                forall r :: r in assignedRanges <==>
                  r !in update.unload && (r in old(assignedRanges) || r in update.load)
      ensures old(events) <= events
      ensures Carries(old(assignedRanges), update, events[|old(events)|..])
      ensures update.FullAssignment? ==>
                forall i :: |old(events)| <= i < |events| ==>
                  && (events[i].range in update.ranges <==> events[i].LoadRange?)
                  && (events[i].range in old(assignedRanges) <==> events[i].UnloadRange?)
    {
      ghost var sent := events;
      match update {
        case FullAssignment(ranges) =>
          var target := SetOf(ranges);
          UnloadDropped(target);
          LoadNew(target);
          assignedRanges := target;
        case Incremental(load, unload) =>
          LoadListed(load);
          UnloadListed(unload);
      }
      ReplayConcat({}, sent, events[|sent|..]);
      assert events == sent + events[|sent|..];
    }

    method UnloadDropped(target: set<FullRangeId>)
      requires Valid()
      modifies `events
      ensures Alternates({}, events) && Replay({}, events) == assignedRanges * target && old(events) <= events
      ensures forall i :: |old(events)| <= i < |events| ==>
                events[i].UnloadRange? && events[i].range !in target && events[i].range in assignedRanges
    {
      hide Replay, Alternates;
      var left := assignedRanges;
      while left != {}
        invariant left <= assignedRanges && old(events) <= events && Alternates({}, events)
        invariant Replay({}, events) == assignedRanges * target + left
        invariant forall i :: |old(events)| <= i < |events| ==>
                    events[i].UnloadRange? && events[i].range !in target && events[i].range in assignedRanges
        decreases |left|
      {
        var r :| r in left;
        if r !in target { Send(UnloadRange(r)); }
        left := left - {r};
      }
    }

    method LoadNew(target: set<FullRangeId>)
      requires Alternates({}, events) && Replay({}, events) == assignedRanges * target
      modifies `events
      ensures Alternates({}, events) && Replay({}, events) == target && old(events) <= events
      ensures forall i :: |old(events)| <= i < |events| ==>
                events[i].LoadRange? && events[i].range in target && events[i].range !in assignedRanges
    {
      hide Replay, Alternates;
      var left := target;
      while left != {}
        invariant left <= target && old(events) <= events && Alternates({}, events)
        invariant forall x :: x in Replay({}, events) <==> x in target && (x in assignedRanges || x !in left)
        invariant forall i :: |old(events)| <= i < |events| ==>
                    events[i].LoadRange? && events[i].range in target && events[i].range !in assignedRanges
        decreases |left|
      {
        var r :| r in left;
        if r !in assignedRanges { Send(LoadRange(r)); }
        left := left - {r};
      }
    }

    method LoadListed(load: seq<FullRangeId>)
      requires Valid()
      modifies this
      ensures Valid() && assignedRanges == old(assignedRanges) + SetOf(load) && old(events) <= events
    {
      for i := 0 to |load|
        invariant Valid() && assignedRanges == old(assignedRanges) + SetOf(load[..i]) && old(events) <= events
      {
        assert load[..i + 1] == load[..i] + [load[i]];
        if load[i] !in assignedRanges { Send(LoadRange(load[i])); }
        assignedRanges := assignedRanges + {load[i]};
      }
      assert load[..|load|] == load;
    }

    method UnloadListed(unload: seq<FullRangeId>)
      requires Valid()
      modifies this
      ensures Valid() && assignedRanges == old(assignedRanges) - SetOf(unload) && old(events) <= events
    {
      for i := 0 to |unload|
        invariant Valid() && assignedRanges == old(assignedRanges) - SetOf(unload[..i]) && old(events) <= events
      {
        assert unload[..i + 1] == unload[..i] + [unload[i]];
        if unload[i] in assignedRanges { Send(UnloadRange(unload[i])); }
        assignedRanges := assignedRanges - {unload[i]};
      }
      assert unload[..|unload|] == unload;
    }
  }
}
