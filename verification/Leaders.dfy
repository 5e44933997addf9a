/**
 * Range leadership over one durable lease row, with any number of servers loading and renewing
 * concurrently (rangeserver/src/storage/cassandra.rs and rangeserver/src/range_manager/impl.rs).
 * Reads, conditional writes and the reads that check them are separate steps.
 */
module Leaders {
  import opened Base
  import opened Leasing

  type ServerId = nat

  datatype Row = Row(leader: nat, lease: Lease)

  /** Where a server is in loading or renewing; from Owner on it believes itself to be leader m. */
  datatype Phase =
    | Idle
    | HasRead(n: nat)
    | Swapped(m: nat, applied: bool)
    | Owner(m: nat, seen: Lease)
    | LoadWritten(m: nat, next: Lease)
    | Serving(m: nat, lease: Lease)
    | RenewWritten(m: nat, lease: Lease, next: Lease)

  /** A lease a server has started to hand out in its prepare replies. */
  datatype Grant = Grant(m: nat, server: ServerId, lease: Lease)

  /**
   * `owner` records whose conditional write put each number into the row, or who has since passed its check in
   * that one's place.
   */
  datatype State = State(row: Row, servers: map<ServerId, Phase>, grants: set<Grant>, owner: map<nat, ServerId>)

  datatype Action =
    | ReadRow(w: ServerId)
    | SwapLeader(w: ServerId)
    | ReRead(w: ServerId)
    | WriteLoadLease(w: ServerId, epoch: Epoch, n: nat)
    | CheckLoad(w: ServerId)
    | WriteRenewal(w: ServerId, epoch: Epoch, n: nat)
    | CheckRenewal(w: ServerId)
    | Unload(w: ServerId)

  function PhaseOf(s: State, w: ServerId): Phase {
    if w in s.servers then s.servers[w] else Idle
  }

  predicate Enabled(s: State, a: Action) {
    var p := PhaseOf(s, a.w);
    match a
    case ReadRow(_) => p.Idle?
    case SwapLeader(_) => p.HasRead?
    case ReRead(_) => p.Swapped?
    case WriteLoadLease(_, _, _) => p.Owner?
    case CheckLoad(_) => p.LoadWritten?
    case WriteRenewal(_, epoch, n) => p.Serving? && DueForRenewal(p.lease, epoch, n)
    case CheckRenewal(_) => p.RenewWritten?
    case Unload(_) => true
  }

  function Goto(s: State, w: ServerId, p: Phase): State {
    s.(servers := s.servers[w := p])
  }

  /** Update the lease if the row still has leader m. */
  function CondLease(row: Row, m: nat, lease: Lease): Row {
    if row.leader == m then row.(lease := lease) else row
  }

  function Apply(s: State, a: Action): State
    requires Enabled(s, a)
  {
    var w, p := a.w, PhaseOf(s, a.w);
    match a
    case ReadRow(_) => Goto(s, w, HasRead(s.row.leader))
    case SwapLeader(_) =>
      if s.row.leader == p.n
      then Goto(s, w, Swapped(p.n + 1, true)).(row := s.row.(leader := p.n + 1), owner := s.owner[p.n + 1 := w])
      else Goto(s, w, Swapped(p.n + 1, false))
    case ReRead(_) =>
      // The outcome of the conditional write is not consulted, only the number now in the row.
      if s.row.leader == p.m
      then Goto(s, w, Owner(p.m, s.row.lease)).(owner := s.owner[p.m := w])
      else Goto(s, w, Idle)
    case WriteLoadLease(_, epoch, n) =>
      var next := LoadLease(p.seen, epoch, n);
      Goto(s, w, LoadWritten(p.m, next)).(row := CondLease(s.row, p.m, next))
    case CheckLoad(_) =>
      if s.row.leader == p.m
      then Goto(s, w, Serving(p.m, p.next)).(grants := s.grants + {Grant(p.m, w, p.next)})
      else Goto(s, w, Idle)
    case WriteRenewal(_, epoch, n) =>
      var next := RenewLease(p.lease, epoch, n);
      Goto(s, w, RenewWritten(p.m, p.lease, next)).(row := CondLease(s.row, p.m, next))
    case CheckRenewal(_) =>
      if s.row.leader == p.m
      then Goto(s, w, Serving(p.m, p.next)).(grants := s.grants + {Grant(p.m, w, p.next)})
      else Goto(s, w, Serving(p.m, p.lease))
    case Unload(_) => Goto(s, w, Idle)
  }

  // ---------------------------------------------------------------- the invariant

  /** All leases granted under leaders before m end at or before hi. */
  ghost predicate OlderEndBy(grants: set<Grant>, m: nat, hi: int) {
    forall g :: g in grants && g.m < m ==> g.lease.hi <= hi
  }

  ghost predicate Fenced(grants: set<Grant>) {
    forall g, h :: g in grants && h in grants && g.m < h.m ==> g.lease.hi < h.lease.lo
  }

  ghost predicate PhaseOk(s: State, w: ServerId, p: Phase) {
    var mine := (m: nat) => m in s.owner && s.owner[m] == w;
    match p
    case Idle => true
    case HasRead(n) =>
      && n <= s.row.leader && (forall m :: m in s.owner && m > n ==> s.owner[m] != w)
      && (forall m :: n < m <= s.row.leader ==> m in s.owner)
    case Swapped(m, applied) => m <= s.row.leader && m in s.owner && (applied <==> mine(m))
    case Owner(m, seen) =>
      && mine(m) && seen.lo <= seen.hi && OlderEndBy(s.grants, m, seen.hi)
      && (m == s.row.leader ==> s.row.lease == seen)
    case LoadWritten(m, next) =>
      && mine(m) && next.lo <= next.hi && OlderEndBy(s.grants, m, next.lo - 1)
      && (m == s.row.leader ==> s.row.lease == next)
    case Serving(m, lease) =>
      && mine(m) && lease.lo <= lease.hi && OlderEndBy(s.grants, m, lease.lo - 1)
      && (m == s.row.leader ==> s.row.lease == lease)
    case RenewWritten(m, lease, next) =>
      && mine(m) && lease.lo <= lease.hi && next.lo <= next.hi
      && OlderEndBy(s.grants, m, lease.lo - 1) && lease.lo <= next.lo
      && (m == s.row.leader ==> s.row.lease == next)
  }

  ghost predicate Inv(s: State) {
    && s.row.lease.lo <= s.row.lease.hi
    && (forall m :: m in s.owner ==> m <= s.row.leader)
    && (forall g :: g in s.grants ==> g.m <= s.row.leader && g.lease.lo <= g.lease.hi <= s.row.lease.hi)
    && Fenced(s.grants)
    && forall w :: w in s.servers ==> PhaseOk(s, w, s.servers[w])
  }

  /** A server that passes the check of its take-over although its conditional write did not apply. */
  predicate Usurps(s: State, a: Action) {
    a.ReRead? && PhaseOf(s, a.w).Swapped? && !PhaseOf(s, a.w).applied && PhaseOf(s, a.w).m == s.row.leader
  }

  /** The server is past a take-over with number m. */
  predicate Active(s: State, v: ServerId, m: nat) {
    var p := PhaseOf(s, v);
    !p.Idle? && !p.HasRead? && p.m == m
  }

  ghost predicate Granted(s: State, v: ServerId, m: nat) {
    exists g :: g in s.grants && g.m == m && g.server == v
  }

  /** It does so while the number's owner is still past its take-over. */
  predicate Clashes(s: State, a: Action) {
    Usurps(s, a) && s.row.leader in s.owner && Active(s, s.owner[s.row.leader], s.row.leader)
  }

  /** It does so while the number's owner is still past its take-over or has handed out a lease. */
  ghost predicate Shares(s: State, a: Action) {
    && Usurps(s, a) && s.row.leader in s.owner
    && (Active(s, s.owner[s.row.leader], s.row.leader) || Granted(s, s.owner[s.row.leader], s.row.leader))
  }

  /** A server's phase is unaffected by what another server does to the row. */
  lemma OthersUnaffected(s: State, a: Action, w: ServerId)
    requires Inv(s) && Enabled(s, a) && !Clashes(s, a) && w in s.servers && w != a.w
    ensures PhaseOk(Apply(s, a), w, s.servers[w])
  {
    assert PhaseOk(s, w, s.servers[w]);
    assert PhaseOk(s, a.w, PhaseOf(s, a.w));
  }

  lemma ActorOk(s: State, a: Action)
    requires Inv(s) && Enabled(s, a) && !Clashes(s, a)
    ensures PhaseOk(Apply(s, a), a.w, PhaseOf(Apply(s, a), a.w))
  {
    var p := PhaseOf(s, a.w);
    assert PhaseOk(s, a.w, p);
    if a.WriteRenewal? { RenewalBounds(p.lease, a.epoch, a.n); }
  }

  lemma SharedOk(s: State, a: Action)
    requires Inv(s) && Enabled(s, a) && !Clashes(s, a)
    ensures var s' := Apply(s, a);
            && s'.row.lease.lo <= s'.row.lease.hi
            && (forall m :: m in s'.owner ==> m <= s'.row.leader)
            && (forall g :: g in s'.grants ==> g.m <= s'.row.leader && g.lease.lo <= g.lease.hi <= s'.row.lease.hi)
            && Fenced(s'.grants)
  {
    var p := PhaseOf(s, a.w);
    assert PhaseOk(s, a.w, p);
    if a.WriteRenewal? { RenewalBounds(p.lease, a.epoch, a.n); }
  }

  lemma StepInv(s: State, a: Action)
    requires Inv(s) && Enabled(s, a) && !Clashes(s, a)
    ensures Inv(Apply(s, a))
  {
    var s' := Apply(s, a);
    SharedOk(s, a);
    ActorOk(s, a);
    hide PhaseOk, Fenced;
    forall w | w in s'.servers ensures PhaseOk(s', w, s'.servers[w]) {
      if w != a.w { OthersUnaffected(s, a, w); }
    }
  }

  // ---------------------------------------------------------------- whole runs

  predicate Initial(s: State) {
    s.servers == map[] && s.grants == {} && s.owner == map[] && s.row.lease.lo <= s.row.lease.hi
  }

  predicate IsRun(s: State, acts: seq<Action>)
    decreases |acts|
  {
    acts == [] || (Enabled(s, acts[0]) && IsRun(Apply(s, acts[0]), acts[1..]))
  }

  function After(s: State, acts: seq<Action>): State
    requires IsRun(s, acts)
    decreases |acts|
  {
    if acts == [] then s else After(Apply(s, acts[0]), acts[1..])
  }

  /** No take-over in the run is claimed while another server is past a take-over with that number. */
  predicate NoClash(s: State, acts: seq<Action>)
    requires IsRun(s, acts)
    decreases |acts|
  {
    acts == [] || (!Clashes(s, acts[0]) && NoClash(Apply(s, acts[0]), acts[1..]))
  }

  lemma {:induction false} RunInv(s: State, acts: seq<Action>)
    requires Inv(s) && IsRun(s, acts) && NoClash(s, acts)
    ensures Inv(After(s, acts))
    decreases |acts|
  {
    hide Inv;
    if acts != [] {
      StepInv(s, acts[0]);
      RunInv(Apply(s, acts[0]), acts[1..]);
    }
  }

  /**
   * Fencing: over any loads, renewals and leader changes, every commit epoch accepted under a later
   * leader exceeds every one accepted under an earlier leader.
   */
  lemma LeadersAreFenced(s: State, acts: seq<Action>, g: Grant, h: Grant, e: Epoch, f: Epoch)
    requires Initial(s) && IsRun(s, acts) && NoClash(s, acts)
    requires g in After(s, acts).grants && h in After(s, acts).grants && g.m < h.m
    requires Covers(g.lease, e) && Covers(h.lease, f)
    ensures e < f
  {
    RunInv(s, acts);
  }

  /**
   * The check of a take-over compares numbers only. In every reachable state it admits the server that
   * owns the number, and no other, if and only if that server's own conditional write applied.
   */
  lemma {:induction false} CheckAdmitsInstallerIff(s: State, acts: seq<Action>, w: ServerId)
    requires Initial(s) && IsRun(s, acts) && NoClash(s, acts)
    requires PhaseOf(After(s, acts), w).Swapped? && PhaseOf(After(s, acts), w).m == After(s, acts).row.leader
    ensures var s' := After(s, acts);
            var m := s'.row.leader;
            (m in s'.owner && s'.owner[m] == w) <==> !Usurps(s', ReRead(w))
  {
    RunInv(s, acts);
    var s' := After(s, acts);
    assert PhaseOk(s', w, s'.servers[w]);
  }

  // ---------------------------------------------------------------- one server per number

  /** All leases handed out under a number were handed out by its owner. */
  ghost predicate Sole(s: State) {
    forall g :: g in s.grants ==> g.m in s.owner && s.owner[g.m] == g.server
  }

  /** Two servers have handed out leases under one number. */
  ghost predicate Shared(s: State) {
    exists g, h :: g in s.grants && h in s.grants && g.m == h.m && g.server != h.server
  }

  ghost predicate NoShare(s: State, acts: seq<Action>)
    requires IsRun(s, acts)
    decreases |acts|
  {
    acts == [] || (!Shares(s, acts[0]) && NoShare(Apply(s, acts[0]), acts[1..]))
  }

  lemma StepSole(s: State, a: Action)
    requires Inv(s) && Sole(s) && Enabled(s, a) && !Shares(s, a)
    ensures Sole(Apply(s, a))
  {
    assert PhaseOk(s, a.w, PhaseOf(s, a.w));
  }

  lemma {:induction false} RunSole(s: State, acts: seq<Action>)
    requires Inv(s) && Sole(s) && IsRun(s, acts) && NoShare(s, acts)
    ensures Inv(After(s, acts)) && Sole(After(s, acts))
    decreases |acts|
  {
    hide Inv, Sole;
    if acts != [] {
      StepInv(s, acts[0]);
      StepSole(s, acts[0]);
      RunSole(Apply(s, acts[0]), acts[1..]);
    }
  }

  /** All leases handed out under one number are handed out by one server. */
  lemma OneServerPerNumber(s: State, acts: seq<Action>)
    requires Initial(s) && IsRun(s, acts) && NoShare(s, acts)
    ensures !Shared(After(s, acts))
  {
    RunSole(s, acts);
  }

  // ---------------------------------------------------------------- what a usurper leads to

  /** No take-over is claimed by a server whose conditional write failed. */
  predicate NoUsurper(s: State, acts: seq<Action>)
    requires IsRun(s, acts)
    decreases |acts|
  {
    acts == [] || (!Usurps(s, acts[0]) && NoUsurper(Apply(s, acts[0]), acts[1..]))
  }

  lemma {:induction false} UsurperFree(s: State, acts: seq<Action>)
    requires IsRun(s, acts) && NoUsurper(s, acts)
    ensures NoClash(s, acts) && NoShare(s, acts)
    decreases |acts|
  {
    hide Apply, Enabled;
    if acts != [] { UsurperFree(Apply(s, acts[0]), acts[1..]); }
  }

  lemma {:induction false} RunConcat(s: State, a: seq<Action>, b: seq<Action>)
    requires IsRun(s, a) && IsRun(After(s, a), b)
    ensures IsRun(s, a + b) && After(s, a + b) == After(After(s, a), b)
    ensures NoUsurper(s, a + b) <==> NoUsurper(s, a) && NoUsurper(After(s, a), b)
    ensures NoClash(s, a + b) <==> NoClash(s, a) && NoClash(After(s, a), b)
    decreases |a|
  {
    hide Apply, Enabled, Usurps, Clashes;
    if a == [] {
      assert a + b == b;
    } else {
      RunConcat(Apply(s, a[0]), a[1..], b);
      assert (a + b)[0] == a[0] && (a + b)[1..] == a[1..] + b;
    }
  }

  /** A run without a (further) usurper from one state to another. */
  ghost predicate Leads(s: State, acts: seq<Action>, s': State) {
    IsRun(s, acts) && NoUsurper(s, acts) && After(s, acts) == s'
  }

  lemma Nowhere(s: State)
    ensures Leads(s, [], s)
  {
  }

  lemma Then(s: State, acts: seq<Action>, s1: State, a: Action)
    requires Leads(s, acts, s1) && Enabled(s1, a) && !Usurps(s1, a)
    ensures Leads(s, acts + [a], Apply(s1, a))
  {
    var s' := Apply(s1, a);
    hide Enabled, Apply, Usurps;
    assert [a][1..] == [] && IsRun(s', []) && IsRun(s1, [a]) && NoUsurper(s1, [a]);
    assert After(s', []) == s' && After(s1, [a]) == s';
    RunConcat(s, acts, [a]);
  }

  /** The server has handed out, under number m, a lease that ends at hi or later. */
  ghost predicate GrantedTo(s: State, v: ServerId, m: nat, hi: int) {
    exists g :: g in s.grants && g.m == m && g.server == v && g.lease.lo <= g.lease.hi && hi <= g.lease.hi
  }

  /** A step of one server that leaves the number in the row and the other servers alone. */
  ghost predicate Alone(s: State, s': State, v: ServerId) {
    && s'.row.leader == s.row.leader && s.grants <= s'.grants
    && (forall u :: u != v ==> PhaseOf(s', u) == PhaseOf(s, u)) && s'.servers.Keys <= s.servers.Keys + {v}
  }

  /** A server that owns the number in the row comes to grant a lease under it that ends late. */
  lemma OwnerGrants(s0: State, before: seq<Action>, s: State, v: ServerId, e: Epoch)
    returns (acts: seq<Action>, s': State)
    requires Leads(s0, before, s) && PhaseOf(s, v).Owner? && PhaseOf(s, v).m == s.row.leader
    ensures Leads(s0, acts, s') && GrantedTo(s', v, s.row.leader, e) && Alone(s, s', v)
    ensures s'.row.lease == LoadLease(PhaseOf(s, v).seen, e, 0)
    ensures Grant(s.row.leader, v, LoadLease(PhaseOf(s, v).seen, e, 0)) in s'.grants
  {
    hide Leads;
    var a := WriteLoadLease(v, e, 0);
    Then(s0, before, s, a);
    var s1 := Apply(s, a);
    Then(s0, before + [a], s1, CheckLoad(v));
    acts, s' := before + [a] + [CheckLoad(v)], Apply(s1, CheckLoad(v));
  }

  /** So does one that serves, by renewing. */
  lemma ServingGrants(s0: State, before: seq<Action>, s: State, v: ServerId, e: Epoch)
    returns (acts: seq<Action>, s': State)
    requires Leads(s0, before, s) && PhaseOf(s, v).Serving? && PhaseOf(s, v).m == s.row.leader
    requires PhaseOf(s, v).lease.lo <= PhaseOf(s, v).lease.hi
    ensures Leads(s0, acts, s') && GrantedTo(s', v, s.row.leader, e) && Alone(s, s', v)
  {
    hide Leads;
    var p := PhaseOf(s, v);
    var epoch := Max(e, p.lease.hi);
    var a := WriteRenewal(v, epoch, 0);
    RenewalBounds(p.lease, epoch, 0);
    Then(s0, before, s, a);
    var s1 := Apply(s, a);
    Then(s0, before + [a], s1, CheckRenewal(v));
    acts, s' := before + [a] + [CheckRenewal(v)], Apply(s1, CheckRenewal(v));
    assert Grant(s.row.leader, v, RenewLease(p.lease, epoch, 0)) in s'.grants;
  }

  /** One that has written a lease checks it and serves. */
  lemma WrittenGrants(s0: State, before: seq<Action>, s: State, v: ServerId, e: Epoch)
    returns (acts: seq<Action>, s': State)
    requires Leads(s0, before, s) && (PhaseOf(s, v).LoadWritten? || PhaseOf(s, v).RenewWritten?)
    requires PhaseOf(s, v).m == s.row.leader && PhaseOf(s, v).next.lo <= PhaseOf(s, v).next.hi
    ensures Leads(s0, acts, s') && GrantedTo(s', v, s.row.leader, e) && Alone(s, s', v)
  {
    hide Leads;
    var a := if PhaseOf(s, v).LoadWritten? then CheckLoad(v) else CheckRenewal(v);
    Then(s0, before, s, a);
    acts, s' := ServingGrants(s0, before + [a], Apply(s, a), v, e);
  }

  lemma ActiveGrants(s0: State, before: seq<Action>, s: State, v: ServerId, e: Epoch)
    returns (acts: seq<Action>, s': State)
    requires Leads(s0, before, s) && Active(s, v, s.row.leader) && !Usurps(s, ReRead(v))
    requires PhaseOf(s, v).Serving? ==> PhaseOf(s, v).lease.lo <= PhaseOf(s, v).lease.hi
    requires PhaseOf(s, v).LoadWritten? || PhaseOf(s, v).RenewWritten? ==>
               PhaseOf(s, v).next.lo <= PhaseOf(s, v).next.hi
    ensures Leads(s0, acts, s') && GrantedTo(s', v, s.row.leader, e) && Alone(s, s', v)
  {
    hide Leads, GrantedTo;
    var p := PhaseOf(s, v);
    if p.Swapped? {
      Then(s0, before, s, ReRead(v));
      acts, s' := OwnerGrants(s0, before + [ReRead(v)], Apply(s, ReRead(v)), v, e);
    } else if p.Owner? {
      acts, s' := OwnerGrants(s0, before, s, v, e);
    } else if p.Serving? {
      acts, s' := ServingGrants(s0, before, s, v, e);
    } else {
      acts, s' := WrittenGrants(s0, before, s, v, e);
    }
  }

  /** A server nobody has heard of takes over and grants a lease that starts right after the one in the row. */
  lemma NewcomerGrants(s0: State, before: seq<Action>, s: State, z: ServerId) returns (acts: seq<Action>, s': State)
    requires Leads(s0, before, s) && z !in s.servers
    ensures Leads(s0, acts, s') && s.grants <= s'.grants
    ensures Grant(s.row.leader + 1, z, LoadLease(s.row.lease, 0, 0)) in s'.grants
  {
    hide Leads;
    Then(s0, before, s, ReadRow(z));
    var s1 := Apply(s, ReadRow(z));
    Then(s0, before + [ReadRow(z)], s1, SwapLeader(z));
    var s2 := Apply(s1, SwapLeader(z));
    Then(s0, before + [ReadRow(z)] + [SwapLeader(z)], s2, ReRead(z));
    var s3 := Apply(s2, ReRead(z));
    acts, s' := OwnerGrants(s0, before + [ReadRow(z)] + [SwapLeader(z)] + [ReRead(z)], s3, z, 0);
  }

  lemma {:induction false} Above(ids: set<nat>) returns (b: nat)
    ensures forall i :: i in ids ==> i < b
    decreases ids
  {
    b := 0;
    if i :| i in ids {
      var c := Above(ids - {i});
      b := if c <= i then i + 1 else c;
      assert forall j :: j in ids ==> j == i || j in ids - {i};
    }
  }

  /** What is known of the owner of a number that is being usurped. */
  lemma OwnerOf(s: State, w: ServerId)
    requires Inv(s) && Usurps(s, ReRead(w))
    ensures s.row.leader in s.owner && s.owner[s.row.leader] != w
    ensures var p, m := PhaseOf(s, s.owner[s.row.leader]), s.row.leader;
            && (p.Swapped? && p.m == m ==> p.applied) && (p.Serving? ==> p.lease.lo <= p.lease.hi)
            && (p.LoadWritten? || p.RenewWritten? ==> p.next.lo <= p.next.hi)
  {
    assert PhaseOk(s, w, s.servers[w]);
    var v := s.owner[s.row.leader];
    assert v in s.servers ==> PhaseOk(s, v, s.servers[v]);
  }

  /**
   * Two servers own the number in the row: one grants a long lease, the other one writes a short lease
   * over it, and the next leader's lease starts inside the long one.
   */
  lemma ClashBreaks(s: State, w: ServerId) returns (acts: seq<Action>, s': State)
    requires Inv(s) && Clashes(s, ReRead(w))
    ensures Leads(Apply(s, ReRead(w)), acts, s') && !Fenced(s'.grants)
  {
    OwnerOf(s, w);
    var v, m, s1 := s.owner[s.row.leader], s.row.leader, Apply(s, ReRead(w));
    hide Inv;
    Nowhere(s1);
    hide Leads, Fenced;
    var far := s.row.lease.hi + 3;
    var s2: State;
    acts, s2 := ActiveGrants(s1, [], s1, v, far);
    var g :| g in s2.grants && g.m == m && g.server == v && g.lease.lo <= g.lease.hi && far <= g.lease.hi;
    var s3: State;
    acts, s3 := OwnerGrants(s1, acts, s2, w, 0);
    assert s3.row.lease == LoadLease(s.row.lease, 0, 0);
    acts, s' := ClashEnds(s1, acts, s3, g);
  }

  lemma ClashEnds(s1: State, before: seq<Action>, s3: State, g: Grant) returns (acts: seq<Action>, s': State)
    requires Leads(s1, before, s3) && g in s3.grants && g.m == s3.row.leader && s3.row.lease.hi + 1 <= g.lease.hi
    ensures Leads(s1, acts, s') && !Fenced(s'.grants)
  {
    hide Leads;
    var z := Above(s3.servers.Keys);
    acts, s' := NewcomerGrants(s1, before, s3, z);
    var h := Grant(s3.row.leader + 1, z, LoadLease(s3.row.lease, 0, 0));
    assert g in s'.grants && h in s'.grants && g.m < h.m && g.lease.hi >= h.lease.lo;
  }

  /**
   * From any state without a clash so far, a step keeps all later leases fenced from the earlier ones, in
   * every run that goes on without a clash, if and only if it is not one itself.
   */
  lemma StepFencedIff(s: State, a: Action)
    requires Inv(s) && Enabled(s, a)
    ensures !Clashes(s, a) <==>
            forall acts :: IsRun(Apply(s, a), acts) && NoClash(Apply(s, a), acts) ==>
              Fenced(After(Apply(s, a), acts).grants)
  {
    var s1 := Apply(s, a);
    if Clashes(s, a) {
      var acts, s' := ClashBreaks(s, a.w);
      UsurperFree(s1, acts);
    } else {
      StepInv(s, a);
      forall acts | IsRun(s1, acts) && NoClash(s1, acts) ensures Fenced(After(s1, acts).grants) { RunInv(s1, acts); }
    }
  }

  lemma ShareBreaks(s: State, w: ServerId) returns (acts: seq<Action>, s': State)
    requires Inv(s) && Shares(s, ReRead(w))
    ensures Leads(Apply(s, ReRead(w)), acts, s') && Shared(s')
  {
    OwnerOf(s, w);
    var v, m, s1 := s.owner[s.row.leader], s.row.leader, Apply(s, ReRead(w));
    hide Inv;
    Nowhere(s1);
    hide Leads;
    acts, s' := OwnerGrants(s1, [], s1, w, 0);
    var h := Grant(m, w, LoadLease(s.row.lease, 0, 0));
    if !Granted(s, v, m) { acts, s' := ActiveGrants(s1, acts, s', v, 0); }
    var g :| g in s'.grants && g.m == m && g.server == v;
    assert h in s'.grants && g.server != h.server;
  }

  /**
   * When a server usurps a number, two servers come to hand out leases under one number, in some run
   * without a further sharing, if and only if the number's owner is still past its conditional write or
   * has handed out a lease already.
   */
  lemma StepSoleIff(s: State, a: Action)
    requires Inv(s) && Sole(s) && Enabled(s, a)
    ensures !Shares(s, a) <==>
            forall acts :: IsRun(Apply(s, a), acts) && NoShare(Apply(s, a), acts) ==> !Shared(After(Apply(s, a), acts))
  {
    var s1 := Apply(s, a);
    if Shares(s, a) {
      var acts, s' := ShareBreaks(s, a.w);
      UsurperFree(s1, acts);
    } else {
      StepInv(s, a);
      StepSole(s, a);
      forall acts | IsRun(s1, acts) && NoShare(s1, acts) ensures !Shared(After(s1, acts)) { RunSole(s1, acts); }
    }
  }

  // ---------------------------------------------------------------- two racers

  /** Two servers read the same number; the second one's conditional write fails, yet both become leader 1. */
  const TAKE_OVERS: seq<Action> := [ReadRow(1), ReadRow(2), SwapLeader(1), SwapLeader(2), ReRead(1), ReRead(2)]

  const LOADS: seq<Action> := [WriteLoadLease(1, 5, 3), CheckLoad(1), WriteLoadLease(2, 7, 3), CheckLoad(2)]

  const BEFORE_RACE: State := State(Row(0, Lease(1, 5)), map[], {}, map[])

  const BOTH_OWN: State :=
    State(Row(1, Lease(1, 5)), map[1 := Owner(1, Lease(1, 5)), 2 := Owner(1, Lease(1, 5))], {}, map[1 := 2])

  lemma BothTakeOver()
    ensures IsRun(BEFORE_RACE, TAKE_OVERS) && !NoClash(BEFORE_RACE, TAKE_OVERS)
    ensures After(BEFORE_RACE, TAKE_OVERS) == BOTH_OWN
  {
    var s1 := Apply(BEFORE_RACE, TAKE_OVERS[0]);
    var s2 := Apply(s1, TAKE_OVERS[1]);
    var s3 := Apply(s2, TAKE_OVERS[2]);
    var s4 := Apply(s3, TAKE_OVERS[3]);
    assert s4.servers == map[1 := Swapped(1, true), 2 := Swapped(1, false)] && s4.row.leader == 1;
    var s5 := Apply(s4, TAKE_OVERS[4]);
    assert Clashes(s5, TAKE_OVERS[5]);
    assert Apply(s5, TAKE_OVERS[5]).servers == BOTH_OWN.servers;
  }

  lemma BothLoad()
    ensures IsRun(BOTH_OWN, LOADS)
    ensures var s := After(BOTH_OWN, LOADS);
            Grant(1, 1, Lease(6, 9)) in s.grants && Grant(1, 2, Lease(8, 11)) in s.grants
  {
  }

  /** Two servers hand out overlapping leases under one leader number. */
  lemma RacersOverlap()
    ensures Initial(BEFORE_RACE) && IsRun(BEFORE_RACE, TAKE_OVERS + LOADS)
    ensures !NoClash(BEFORE_RACE, TAKE_OVERS + LOADS)
    ensures var s := After(BEFORE_RACE, TAKE_OVERS + LOADS);
            Grant(1, 1, Lease(6, 9)) in s.grants && Grant(1, 2, Lease(8, 11)) in s.grants
  {
    BothTakeOver();
    BothLoad();
    RunConcat(BEFORE_RACE, TAKE_OVERS, LOADS);
  }

  /** The first racer grants a long lease, the second one writes a short one over it. */
  const SHORTEN: seq<Action> := [WriteLoadLease(1, 5, 14), CheckLoad(1), WriteLoadLease(2, 5, 1)]

  const SHORTENED: State :=
    State(Row(1, Lease(6, 7)), map[1 := Serving(1, Lease(6, 20)), 2 := LoadWritten(1, Lease(6, 7))],
          {Grant(1, 1, Lease(6, 20))}, map[1 := 2])

  /** A third server becomes leader 2. */
  const SUCCEED: seq<Action> := [ReadRow(3), SwapLeader(3), ReRead(3), WriteLoadLease(3, 5, 1), CheckLoad(3)]

  lemma Shortens()
    ensures IsRun(BOTH_OWN, SHORTEN) && After(BOTH_OWN, SHORTEN) == SHORTENED
  {
    var s1 := Apply(BOTH_OWN, SHORTEN[0]);
    var s2 := Apply(s1, SHORTEN[1]);
    assert s2.servers == map[1 := Serving(1, Lease(6, 20)), 2 := Owner(1, Lease(1, 5))];
    assert Apply(s2, SHORTEN[2]).servers == SHORTENED.servers;
  }

  lemma Succeeds()
    ensures IsRun(SHORTENED, SUCCEED)
    ensures var s := After(SHORTENED, SUCCEED);
            Grant(1, 1, Lease(6, 20)) in s.grants && Grant(2, 3, Lease(8, 9)) in s.grants
  {
    var s1 := Apply(SHORTENED, SUCCEED[0]);
    var s2 := Apply(s1, SUCCEED[1]);
    assert PhaseOf(s2, 3) == Swapped(2, true) && s2.row == Row(2, Lease(6, 7));
    var s3 := Apply(s2, SUCCEED[2]);
    assert PhaseOf(s3, 3) == Owner(2, Lease(6, 7));
  }

  lemma Unfenced(grants: set<Grant>, g: Grant, h: Grant)
    requires g in grants && h in grants && g.m < h.m && h.lease.lo <= g.lease.hi
    ensures !Fenced(grants)
  {
  }

  /** A run from a fresh row in which leader 2 hands out epochs that leader 1 handed out as well. */
  lemma RacersBreakFence()
    ensures Initial(BEFORE_RACE) && IsRun(BEFORE_RACE, TAKE_OVERS + SHORTEN + SUCCEED)
    ensures !NoClash(BEFORE_RACE, TAKE_OVERS + SHORTEN + SUCCEED)
    ensures var s := After(BEFORE_RACE, TAKE_OVERS + SHORTEN + SUCCEED);
            Grant(1, 1, Lease(6, 20)) in s.grants && Grant(2, 3, Lease(8, 9)) in s.grants && !Fenced(s.grants)
  {
    BothTakeOver();
    Shortens();
    Succeeds();
    RunConcat(BEFORE_RACE, TAKE_OVERS, SHORTEN);
    RunConcat(BEFORE_RACE, TAKE_OVERS + SHORTEN, SUCCEED);
    Unfenced(After(SHORTENED, SUCCEED).grants, Grant(1, 1, Lease(6, 20)), Grant(2, 3, Lease(8, 9)));
  }
}
