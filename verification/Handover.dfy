/** Frontends that pass from one rule to another: when the order of passes matters, and how
    further passes make good what a bad order missed. */
module Handover {
  import opened Dsm
  import opened Client
  import opened Proxy
  import opened Rules
  import opened Sync
  import opened Convergence
  import opened Fleet
  import opened Contention

  // ------------------------------------------------------ more turns never hurt

  lemma MoverAhead(rs0: seq<ProxyEntry>, x: seq<ProxyEntry>, x': seq<ProxyEntry>, y: seq<ProxyEntry>,
      y': seq<ProxyEntry>,
      j0: Job, j: Job, k: nat, k': nat)
    requires j.plan == j0.plan && Scope(j) <= Scope(j0) && GetsTo(x, x', j, k) && k <= k' <= |j0.plan.hosts|
    requires Ahead(rs0, x, y, j0) && Ahead(rs0, y, y', j0) && InPlaceUpTo(rs0, y', j0, k')
    ensures Ahead(rs0, x', y', j0)
  {
    forall d | d in Scope(j0) && InPlace(rs0, x', j0.plan, d) ensures InPlace(rs0, y', j0.plan, d) {
      if d in Descs(j0.plan) && d !in DescsUpTo(j0.plan, k') {
        assert d !in DescsUpTo(j0.plan, k);
        assert At(x', d) == At(x, d);
        assert InPlace(rs0, x, j0.plan, d);
      }
    }
  }

  lemma CappedReach(rs: seq<ProxyEntry>, rs': seq<ProxyEntry>, j: Job, k: nat, m: nat)
    requires GetsTo(rs, rs', j, k) && m < |j.plan.hosts| && At(rs', j.plan.hosts[m].desc) == []
    ensures k <= m
  {
  }

  /** Two runs of stuck rules, the second ahead of the first. */
  ghost predicate Pair(f0: Fleet, far: seq<nat>, x: Fleet, y: Fleet) {
    && Onward(f0, x) && Onward(f0, y)
    && Capped(f0, x.w.nas.records, far) && Capped(f0, y.w.nas.records, far)
    && AllAhead(f0, x.w.nas.records, y.w.nas.records)
  }

  /** The same turn in both: the mover of the second gets at least as far. */
  lemma BothGetAsFar(f0: Fleet, far: seq<nat>, x: Fleet, y: Fleet, a: nat, k: nat, k': nat)
    requires Charted(f0, far) && Pair(f0, far, x, y) && a < |f0.jobs|
    requires GetsTo(x.w.nas.records, Turn(x, a).w.nas.records, x.jobs[a], k) && Onward(f0, Turn(x, a))
    requires GetsTo(y.w.nas.records, Turn(y, a).w.nas.records, y.jobs[a], k')
    ensures k <= k'
  {
    CappedTurn(f0, x, far, a);
    assert Accounts(x.w.nas.records, f0.jobs[a], x.jobs[a]) && Accounts(y.w.nas.records, f0.jobs[a], y.jobs[a]);
    if far[a] < |f0.jobs[a].plan.hosts| {
      CappedReach(x.w.nas.records, Turn(x, a).w.nas.records, x.jobs[a], k, far[a]);
    }
    GetsAsFar(f0, far, x.w.nas.records, y.w.nas.records, Turn(y, a).w.nas.records, a, x.jobs[a], y.jobs[a], k, k');
  }

  lemma BothTurn(f0: Fleet, far: seq<nat>, x: Fleet, y: Fleet, a: nat)
    requires Charted(f0, far) && Pair(f0, far, x, y) && a < |f0.jobs|
    ensures Pair(f0, far, Turn(x, a), Turn(y, a))
  {
    CappedTurn(f0, x, far, a);
    CappedTurn(f0, y, far, a);
    BothAhead(f0, far, x, y, a);
  }

  lemma BothAhead(f0: Fleet, far: seq<nat>, x: Fleet, y: Fleet, a: nat)
    requires Charted(f0, far) && Pair(f0, far, x, y) && a < |f0.jobs|
    ensures Onward(f0, Turn(x, a)) && Onward(f0, Turn(y, a))
    ensures AllAhead(f0, Turn(x, a).w.nas.records, Turn(y, a).w.nas.records)
  {
    var rs0, xs, ys := f0.w.nas.records, x.w.nas.records, y.w.nas.records;
    var xs', ys' := Turn(x, a).w.nas.records, Turn(y, a).w.nas.records;
    var k := TurnOnward(f0, x, a);
    var k' := TurnOnward(f0, y, a);
    BothGetAsFar(f0, far, x, y, a, k, k');
    assert Accounts(xs, f0.jobs[a], x.jobs[a]);
    MoverAhead(rs0, xs, xs', ys, ys', f0.jobs[a], x.jobs[a], k, k');
    forall i | 0 <= i < |f0.jobs| && i != a ensures Ahead(rs0, xs', ys', f0.jobs[i]) {
      OthersAhead(rs0, xs, xs', ys, ys', f0.jobs[i]);
    }
  }

  lemma OthersAhead(rs0: seq<ProxyEntry>, x: seq<ProxyEntry>, x': seq<ProxyEntry>, y: seq<ProxyEntry>,
      y': seq<ProxyEntry>,
      j0: Job)
    requires Ahead(rs0, x', x, j0) && Ahead(rs0, x, y, j0) && Ahead(rs0, y, y', j0)
    ensures Ahead(rs0, x', y', j0)
  {
  }

  /** A turn in the second alone. */
  lemma OneTurn(f0: Fleet, far: seq<nat>, x: Fleet, y: Fleet, a: nat)
    requires Charted(f0, far) && Pair(f0, far, x, y) && a < |f0.jobs|
    ensures Pair(f0, far, x, Turn(y, a))
  {
    var k := TurnOnward(f0, y, a);
    CappedTurn(f0, y, far, a);
    AheadTrans(f0, x.w.nas.records, y.w.nas.records, Turn(y, a).w.nas.records);
  }

  lemma {:induction false} PlayOnward(f0: Fleet, order: seq<nat>)
    requires Team(f0) && Indices(f0, order)
    ensures Onward(f0, Play(f0, order))
  {
    if order != [] {
      var n := |order| - 1;
      PlayOnward(f0, order[..n]);
      var k := TurnOnward(f0, Play(f0, order[..n]), order[n]);
    }
  }

  /** A stuck host is not created by any run. */
  lemma {:induction false} StuckForGood(f0: Fleet, order: seq<nat>, a: nat, i: nat)
    requires Team(f0) && Stuck(f0, a, i) && Indices(f0, order)
    ensures At(Play(f0, order).w.nas.records, f0.jobs[a].plan.hosts[i].desc) == []
  {
    if order == [] {
      StuckIsMissing(f0, a, i);
    } else {
      var n := |order| - 1;
      StuckForGood(f0, order[..n], a, i);
      PlayOnward(f0, order[..n]);
      StuckTurn(f0, Play(f0, order[..n]), a, i, order[n]);
    }
  }

  lemma StuckAnyway(f0: Fleet, far: seq<nat>, order: seq<nat>)
    requires Team(f0) && Caps(f0, far) && Indices(f0, order)
    ensures Capped(f0, Play(f0, order).w.nas.records, far)
  {
    forall i | 0 <= i < |far| && far[i] < |f0.jobs[i].plan.hosts|
      ensures At(Play(f0, order).w.nas.records, f0.jobs[i].plan.hosts[far[i]].desc) == []
    {
      StuckForGood(f0, order, i, far[i]);
    }
  }

  /** Turns put in anywhere undo nothing: of rules that do not contest a frontend, whatever
      is done after some turns is done after any run that has them in the same order. */
  lemma {:induction false} MoreTurns(f0: Fleet, far: seq<nat>, few: seq<nat>, many: seq<nat>)
    requires Charted(f0, far) && Indices(f0, few) && Indices(f0, many) && Sublist(few, many)
    ensures Pair(f0, far, Play(f0, few), Play(f0, many))
  {
    if few == [] {
      PlayOnward(f0, many);
      StuckAnyway(f0, far, many);
      StartOnward(f0);
      CapsAtStart(f0, far);
      StartIsBehind(f0, Play(f0, many).w.nas.records);
    } else {
      var m, n := |few| - 1, |many| - 1;
      if few[m] == many[n] && Sublist(few[..m], many[..n]) {
        MoreTurns(f0, far, few[..m], many[..n]);
        BothTurn(f0, far, Play(f0, few[..m]), Play(f0, many[..n]), many[n]);
      } else {
        MoreTurns(f0, far, few, many[..n]);
        OneTurn(f0, far, Play(f0, few), Play(f0, many[..n]), many[n]);
      }
    }
  }

  // ------------------------------------------------------------------- served

  ghost predicate Finished(f0: Fleet, rs: seq<ProxyEntry>, far: seq<nat>) {
    |far| == |f0.jobs| && forall i | 0 <= i < |far| :: ServedTo(f0, rs, i, far)
  }

  /** Some order of turns gives every rule what it wants. */
  ghost predicate Servable(f: Fleet) {
    exists order :: Complete(f, order) && Finished(f, Play(f, order).w.nas.records, Full(f))
  }

  lemma FinishedStays(f0: Fleet, rs: seq<ProxyEntry>, rs': seq<ProxyEntry>, done: seq<nat>)
    requires Finished(f0, rs, done) && AllAhead(f0, rs, rs')
    ensures Finished(f0, rs', done)
  {
    forall i | 0 <= i < |f0.jobs| ensures ServedTo(f0, rs', i, done) {
      assert ServedTo(f0, rs, i, done) && Ahead(f0.w.nas.records, rs, rs', f0.jobs[i]);
    }
  }

  /** So turns that serve everybody so far also do with any turns put in. */
  lemma MoreTurnsServe(f0: Fleet, far: seq<nat>, few: seq<nat>, many: seq<nat>, done: seq<nat>)
    requires Charted(f0, far) && Indices(f0, few) && Indices(f0, many) && Sublist(few, many)
    requires Finished(f0, Play(f0, few).w.nas.records, done)
    ensures Finished(f0, Play(f0, many).w.nas.records, done)
  {
    MoreTurns(f0, far, few, many);
    FinishedStays(f0, Play(f0, few).w.nas.records, Play(f0, many).w.nas.records, done);
  }

  lemma HostPresent(f0: Fleet, rs: seq<ProxyEntry>, a: nat, i: nat, far: seq<nat>)
    requires a < |f0.jobs| == |far| && i < |f0.jobs[a].plan.hosts|
    requires ServedTo(f0, rs, a, far) && i < far[a]
    ensures At(rs, f0.jobs[a].plan.hosts[i].desc) != []
  {
    var rs0, plan := f0.w.nas.records, f0.jobs[a].plan;
    var d := plan.hosts[i].desc;
    assert d in Scope(f0.jobs[a]) && d in DescsUpTo(plan, far[a]);
    assert InPlace(rs0, rs, plan, d);
    assert Shows(At(rs0, d), At(rs, d), Want(plan, i));
  }

  // ---------------------------------------------------------------- a handover

  /** Host `i` of rule `a` has no record, and one of rule `b` sits at its frontend. */
  ghost predicate HandedOver(f: Fleet, a: nat, b: nat, i: nat, r: ProxyEntry) {
    && a < |f.jobs| && b < |f.jobs| && a != b
    && InTheWay(f.w.nas.records, f.jobs[a], i, r) && r.description in Scope(f.jobs[b])
  }

  ghost predicate NoHandover(f: Fleet) {
    forall a, b, i, r :: !HandedOver(f, a, b, i, r)
  }

  /** A rule that goes first misses a host that is not clear, and turns of others do not
      change that. */
  lemma FirstMisses(f: Fleet, a: nat, i: nat, rest: seq<nat>)
    requires Team(f) && a < |f.jobs| && i < |f.jobs[a].plan.hosts| && Indices(f, rest) && a !in rest
    requires !Clear(Drop(f.w.nas.records, AllStale(f.jobs[a].status, f.jobs[a].plan)), f.jobs[a].plan, i)
    ensures At(Turn(f, a).w.nas.records, f.jobs[a].plan.hosts[i].desc) == []
    ensures Indices(f, [a] + rest)
    ensures At(Play(f, [a] + rest).w.nas.records, f.jobs[a].plan.hosts[i].desc) == []
  {
    UnclearTurn(f.w, f.jobs[a], i);
    TeamAway(f, a, i);
    TurnThenOthers(f, a, rest, f.jobs[a].plan.hosts[i].desc);
  }

  lemma Everybody(n: nat) returns (order: seq<nat>)
    ensures forall i | 0 <= i < n :: i in order
    ensures forall k | 0 <= k < |order| :: order[k] < n
  {
    order := seq(n, i requires 0 <= i < n => i);
    forall i | 0 <= i < n ensures i in order {
      assert order[i] == i;
    }
  }

  /** Everybody but `a`, in some order. */
  lemma EverybodyElse(n: nat, a: nat) returns (order: seq<nat>)
    requires a < n
    ensures a !in order && forall i | 0 <= i < n && i != a :: i in order
    ensures forall k | 0 <= k < |order| :: order[k] < n
  {
    order := seq(a, i requires 0 <= i < a => i) + seq(n - 1 - a, i requires 0 <= i < n - 1 - a => a + 1 + i);
    forall i | 0 <= i < n && i != a ensures i in order {
      assert order[if i < a then i else i - 1] == i;
    }
  }

  /** A host that the rule misses when it goes first, and that some order creates. */
  lemma MissedOnce(f: Fleet, a: nat, i: nat, order: seq<nat>)
    requires Team(f) && a < |f.jobs| && i < |f.jobs[a].plan.hosts| && Complete(f, order)
    requires !Clear(Drop(f.w.nas.records, AllStale(f.jobs[a].status, f.jobs[a].plan)), f.jobs[a].plan, i)
    requires At(Play(f, order).w.nas.records, f.jobs[a].plan.hosts[i].desc) != []
    ensures !OrderIrrelevant(f) && !AsIfAllAlone(f)
  {
    var d := f.jobs[a].plan.hosts[i].desc;
    var rest := EverybodyElse(|f.jobs|, a);
    FirstMisses(f, a, i, rest);
    assert Complete(f, [a] + rest);
    Disagree(f, order, [a] + rest, d);
    assert d in Scope(f.jobs[a]);
    assert !Alike(Play(f, order).w.nas.records, Turn(f, a).w.nas.records, d);
  }

  // -------------------------------------------------------- rules some order serves

  /** A record at the frontend of a missing host is foreign, the rule's own or handed over. */
  lemma WhoseRecord(f: Fleet, a: nat, i: nat, r: ProxyEntry) returns (b: nat)
    requires Team(f) && a < |f.jobs| && i < |f.jobs[a].plan.hosts| && r in f.w.nas.records
    requires At(f.w.nas.records, f.jobs[a].plan.hosts[i].desc) == []
    requires SameFrontend(r.frontend, Want(f.jobs[a].plan, i).frontend)
    requires r.description in Scopes(f)
    ensures b < |f.jobs| && r.description in Scope(f.jobs[b]) && (b == a || HandedOver(f, a, b, i, r))
  {
    b :| 0 <= b < |f.jobs| && r.description in Scope(f.jobs[b]);
    assert b != a ==> Scope(f.jobs[a]) !! Scope(f.jobs[b]);
  }

  lemma NotHandedOver(f: Fleet, a: nat, i: nat, r: ProxyEntry)
    requires Team(f) && NoHandover(f) && a < |f.jobs| && i < |f.jobs[a].plan.hosts|
    requires r in Drop(f.w.nas.records, AllStale(f.jobs[a].status, f.jobs[a].plan))
    requires At(f.w.nas.records, f.jobs[a].plan.hosts[i].desc) == []
    requires SameFrontend(r.frontend, Want(f.jobs[a].plan, i).frontend)
    requires r.description !in DescsUpTo(f.jobs[a].plan, i)
    ensures Unmoved(f, a, i, r)
  {
    DropMembers(f.w.nas.records, AllStale(f.jobs[a].status, f.jobs[a].plan));
    ScopeIsTerritory(f.jobs[a]);
    if r.description in Scopes(f) {
      var b := WhoseRecord(f, a, i, r);
    }
  }

  lemma UnclearIsStuck(f: Fleet, a: nat, i: nat)
    requires Team(f) && NoHandover(f) && a < |f.jobs| && i < |f.jobs[a].plan.hosts|
    requires !Clear(Drop(f.w.nas.records, AllStale(f.jobs[a].status, f.jobs[a].plan)), f.jobs[a].plan, i)
    ensures Stuck(f, a, i)
  {
    var plan, stale := f.jobs[a].plan, AllStale(f.jobs[a].status, f.jobs[a].plan);
    var swept := Drop(f.w.nas.records, stale);
    ScopeIsTerritory(f.jobs[a]);
    AtDrop(f.w.nas.records, stale, plan.hosts[i].desc);
    if r :| r in swept && SameFrontend(r.frontend, Want(plan, i).frontend) && r.description !in DescsUpTo(plan, i) {
      NotHandedOver(f, a, i, r);
    }
  }

  lemma NoHandoverOpen(f: Fleet, order: seq<nat>)
    requires Team(f) && NoHandover(f) && Complete(f, order) && Finished(f, Play(f, order).w.nas.records, Full(f))
    ensures Steady(f, Full(f))
  {
    forall a | 0 <= a < |f.jobs|
      ensures Unobstructed(Drop(f.w.nas.records, AllStale(f.jobs[a].status, f.jobs[a].plan)), f.jobs[a].plan,
          Full(f)[a])
    {
      var plan, swept := f.jobs[a].plan, Drop(f.w.nas.records, AllStale(f.jobs[a].status, f.jobs[a].plan));
      if !Unobstructed(swept, plan, |plan.hosts|) {
        var i := FirstUnclear(swept, plan, |plan.hosts|);
        UnclearIsStuck(f, a, i);
        StuckForGood(f, order, a, i);
        HostPresent(f, Play(f, order).w.nas.records, a, i, Full(f));
        assert false;
      }
    }
  }

  lemma HandoverMatters(f: Fleet, order: seq<nat>, a: nat, b: nat, i: nat, r: ProxyEntry)
    requires Team(f) && Complete(f, order) && Finished(f, Play(f, order).w.nas.records, Full(f))
    requires HandedOver(f, a, b, i, r)
    ensures !OrderIrrelevant(f) && !AsIfAllAlone(f)
  {
    var x := InTheWayBlocks(f.w.nas.records, f.jobs[a], i, r);
    HostPresent(f, Play(f, order).w.nas.records, a, x, Full(f));
    MissedOnce(f, a, x, order);
  }

  /** Of rules that some order serves, the order is irrelevant, and company makes no
      difference, exactly when no two want a frontend that one of them has yet to create its
      record at and no record of one sits at a frontend where another has yet to. */
  lemma ServableExactly(f: Fleet)
    requires Team(f) && Servable(f)
    ensures OrderIrrelevant(f) <==> Uncontested(f, Full(f)) && NoHandover(f)
    ensures AsIfAllAlone(f) <==> Uncontested(f, Full(f)) && NoHandover(f)
  {
    var order :| Complete(f, order) && Finished(f, Play(f, order).w.nas.records, Full(f));
    if NoHandover(f) {
      NoHandoverOpen(f, order);
      OrderMattersExactly(f, Full(f));
      CompanyMattersExactly(f, Full(f));
    } else {
      var a, b, i, r :| HandedOver(f, a, b, i, r);
      HandoverMatters(f, order, a, b, i, r);
    }
  }

  // ------------------------------------------- once all stale records are gone

  function AllGone(f: Fleet): set<string> {
    set i, d | 0 <= i < |f.jobs| && d in AllStale(f.jobs[i].status, f.jobs[i].plan) :: d
  }

  /** The records that are left when every rule has swept. */
  function Departed(f: Fleet): seq<ProxyEntry> {
    Drop(f.w.nas.records, AllGone(f))
  }

  lemma GoneInScope(f: Fleet)
    requires Team(f)
    ensures AllGone(f) <= Scopes(f)
    ensures forall i | 0 <= i < |f.jobs| :: AllGone(f) !! Descs(f.jobs[i].plan)
  {
    forall i, d | 0 <= i < |f.jobs| && d in AllStale(f.jobs[i].status, f.jobs[i].plan)
      ensures d in Scope(f.jobs[i]) && d !in Descs(f.jobs[i].plan)
    {
      ScopeIsTerritory(f.jobs[i]);
    }
    forall i, d | 0 <= i < |f.jobs| && d in AllGone(f) ensures d !in Descs(f.jobs[i].plan) {
      var k :| 0 <= k < |f.jobs| && d in AllStale(f.jobs[k].status, f.jobs[k].plan);
      assert d in Scope(f.jobs[k]);
      assert k != i ==> d !in Scope(f.jobs[i]);
    }
  }

  lemma DepartedBetween(f: Fleet)
    requires Team(f)
    ensures Between(f, Departed(f))
  {
    var rs0 := f.w.nas.records;
    GoneInScope(f);
    DropDrop(rs0, AllGone(f), Scopes(f));
    assert AllGone(f) + Scopes(f) == Scopes(f);
    forall i | 0 <= i < |f.jobs| ensures Underway(rs0, Departed(f), f.jobs[i]) {
      DepartedUnderway(f, i);
    }
  }

  lemma DepartedUnderway(f: Fleet, i: nat)
    requires Team(f) && i < |f.jobs|
    ensures Underway(f.w.nas.records, Departed(f), f.jobs[i])
  {
    GoneInScope(f);
    forall d ensures At(Departed(f), d) == if d in AllGone(f) then [] else At(f.w.nas.records, d) {
      AtDrop(f.w.nas.records, AllGone(f), d);
    }
  }

  /** A list on the way in which nothing stale is left is ahead of the departed one. */
  lemma DepartedIsBehind(f: Fleet, rs: seq<ProxyEntry>, none: seq<nat>)
    requires Team(f) && Between(f, rs) && |none| == |f.jobs|
    requires forall i | 0 <= i < |f.jobs| :: none[i] == 0 && ServedTo(f, rs, i, none)
    ensures AllAhead(f, Departed(f), rs)
  {
    var rs0 := f.w.nas.records;
    forall i, d | 0 <= i < |f.jobs| && d in Scope(f.jobs[i]) && InPlace(rs0, Departed(f), f.jobs[i].plan, d)
      ensures InPlace(rs0, rs, f.jobs[i].plan, d)
    {
      assert Underway(rs0, rs, f.jobs[i]) && ServedTo(f, rs, i, none);
      if d in Descs(f.jobs[i].plan) {
        GoneInScope(f);
        AtDrop(rs0, AllGone(f), d);
      }
    }
  }

  lemma DepartedAlsoSwept(f: Fleet, i: nat)
    requires i < |f.jobs|
    ensures Drop(Departed(f), AllStale(f.jobs[i].status, f.jobs[i].plan)) == Departed(f)
  {
    var stale := AllStale(f.jobs[i].status, f.jobs[i].plan);
    DropDrop(f.w.nas.records, AllGone(f), stale);
    assert AllGone(f) + stale == AllGone(f);
  }

  /** How far a rule is unobstructed. */
  function Reach(rs: seq<ProxyEntry>, plan: Plan, n: nat): (k: nat)
    requires n <= |plan.hosts|
    ensures k <= n && Unobstructed(rs, plan, k) && (k < n ==> !Clear(rs, plan, k))
  {
    if n == 0 || Unobstructed(rs, plan, n) then n else Reach(rs, plan, n - 1)
  }

  /** How far each rule gets when it is the first to have a turn. */
  function Reaches(f: Fleet, rs: seq<ProxyEntry>): (far: seq<nat>)
    ensures |far| == |f.jobs| && forall i | 0 <= i < |far| :: far[i] == ReachOf(rs, f.jobs[i])
  {
    seq(|f.jobs|, i requires 0 <= i < |f.jobs| => ReachOf(rs, f.jobs[i]))
  }

  /** How far each rule gets when all stale records are gone. */
  function Later(f: Fleet): (far: seq<nat>)
    ensures |far| == |f.jobs|
  {
    Reaches(f, Departed(f))
  }

  function ReachOf(rs: seq<ProxyEntry>, j: Job): (k: nat)
    ensures k <= |j.plan.hosts|
  {
    Reach(Drop(rs, AllStale(j.status, j.plan)), j.plan, |j.plan.hosts|)
  }

  lemma FirstRoundSweeps(f: Fleet, far: seq<nat>, one: seq<nat>)
    requires Charted(f, far) && Complete(f, one)
    ensures
      var g := Play(f, one);
      Onward(f, g) && Capped(f, g.w.nas.records, far) && AllAhead(f, Departed(f), g.w.nas.records)
  {
    var none: seq<nat> := seq(|f.jobs|, i => 0);
    StartServes(f, far, one, none);
    forall i | 0 <= i < |f.jobs| ensures ServedTo(f, Play(f, one).w.nas.records, i, none) {
      CoveredIsServed(f, Play(f, one).w.nas.records, one, i, none);
    }
    DepartedIsBehind(f, Play(f, one).w.nas.records, none);
  }

  lemma DepartedWithin(f: Fleet, far: seq<nat>)
    requires Team(f) && Caps(f, far)
    ensures Within(f, far, Departed(f))
  {
    DepartedBetween(f);
    CapsAtStart(f, far);
    forall i | 0 <= i < |far| && far[i] < |f.jobs[i].plan.hosts|
      ensures At(Departed(f), f.jobs[i].plan.hosts[far[i]].desc) == []
    {
      AtDrop(f.w.nas.records, AllGone(f), f.jobs[i].plan.hosts[far[i]].desc);
    }
  }

  /** After a round in which every rule has had a turn, the next turn of a rule serves it as
      far as it is unobstructed once all stale records are gone. */
  lemma NextTurnServes(f: Fleet, far: seq<nat>, one: seq<nat>, two: seq<nat>, i: nat)
    requires Charted(f, far) && OpenTo(f, Departed(f), far)
    requires Complete(f, one) && Indices(f, two) && i < |f.jobs| && i in two
    ensures Indices(f, one + two) && ServedTo(f, Play(f, one + two).w.nas.records, i, far)
  {
    FirstRoundSweeps(f, far, one);
    DepartedWithin(f, far);
    PlayServes(f, far, Departed(f), Play(f, one), two, far);
    PlayAppend(f, one, two);
    CoveredIsServed(f, Play(f, one + two).w.nas.records, two, i, far);
  }

  /** No rule is obstructed once all stale records are gone. */
  ghost predicate Gathered(f: Fleet) {
    Team(f) && OpenTo(f, Departed(f), Full(f))
  }

  /** Two rounds, in any orders, serve such rules if they do not contest a frontend. */
  lemma TwoRoundsServe(f: Fleet, one: seq<nat>, two: seq<nat>)
    requires Gathered(f) && Uncontested(f, Full(f)) && Complete(f, one) && Complete(f, two)
    ensures Complete(f, one + two) && Finished(f, Play(f, one + two).w.nas.records, Full(f))
  {
    forall i | 0 <= i < |f.jobs| ensures ServedTo(f, Play(f, one + two).w.nas.records, i, Full(f)) {
      NextTurnServes(f, Full(f), one, two, i);
    }
  }

  /** And one round, in any order, does exactly when no frontend is handed over. */
  lemma HandoverExactly(f: Fleet)
    requires Gathered(f) && Uncontested(f, Full(f))
    ensures Servable(f)
    ensures OrderIrrelevant(f) <==> NoHandover(f)
    ensures AsIfAllAlone(f) <==> NoHandover(f)
  {
    var one := Everybody(|f.jobs|);
    TwoRoundsServe(f, one, one);
    ServableExactly(f);
  }

  lemma OneHost(plan: Plan)
    requires |plan.hosts| == 1
    ensures Descs(plan) == {plan.hosts[0].desc}
    ensures Want(plan, 0).frontend.fqdn == plan.hosts[0].host
    ensures Want(plan, 0).frontend.port == Or(plan.base.sourcePort, 443)
  {
  }

  lemma NothingBlocks(plan: Plan)
    requires |plan.hosts| == 1
    ensures Unobstructed([], plan, 1)
  {
    assert Clear([], plan, 0);
  }

  lemma OneTracked(j: Job, d: string)
    requires |j.status.managed| == 1 && j.status.managed[0].description == d && d !in Descs(j.plan)
    ensures Scope(j) == Descs(j.plan) + {d} && d in AllStale(j.status, j.plan)
  {
  }

  lemma OnlyRecord(rs: seq<ProxyEntry>, r: ProxyEntry, gone: set<string>)
    requires rs == [r] && r.description in gone
    ensures Drop(rs, gone) == []
  {
    assert rs[1..] == [];
  }

  lemma NotThere(rs: seq<ProxyEntry>, r: ProxyEntry, d: string)
    requires rs == [r] && r.description != d
    ensures At(rs, d) == []
  {
    assert rs[1..] == [];
  }

  lemma OnlyOneWants(f: Fleet, far: seq<nat>)
    requires |f.jobs| == 2 && |f.jobs[0].plan.hosts| == |f.jobs[1].plan.hosts| == 1 && far == [1, 1]
    requires f.jobs[0].plan.hosts[0].host != f.jobs[1].plan.hosts[0].host
    ensures Uncontested(f, far)
  {
  }

  lemma OneLeaves(f: Fleet, r: ProxyEntry)
    requires f.w.script == [] && Sound(f.w.nas) && f.w.nas.records == [r] && |f.jobs| == 2
    requires |f.jobs[0].plan.hosts| == |f.jobs[1].plan.hosts| == 1
    requires Scope(f.jobs[0]) !! Scope(f.jobs[1]) && r.description in AllStale(f.jobs[1].status, f.jobs[1].plan)
    requires f.jobs[0].plan.hosts[0].host != f.jobs[1].plan.hosts[0].host
    ensures Gathered(f) && Uncontested(f, Full(f))
  {
    OnlyRecord(f.w.nas.records, r, AllGone(f));
    NothingBlocks(f.jobs[0].plan);
    NothingBlocks(f.jobs[1].plan);
    DepartedAlsoSwept(f, 0);
    DepartedAlsoSwept(f, 1);
    OnlyOneWants(f, Full(f));
  }

  /** Moving a host from one rule to another does hand over its frontend: rule 1 has dropped
      host `x` and rule 0 has taken it up. */
  lemma HostMoves(f: Fleet, a: string, b: string, x: string, y: string, r: ProxyEntry)
    requires f.w.script == [] && Sound(f.w.nas) && f.w.nas.records == [r] && |f.jobs| == 2
    requires r.description == b + "/" + x && r.frontend.fqdn == x
    requires r.frontend.port == Or(f.jobs[0].plan.base.sourcePort, 443)
    requires f.jobs[0].plan.hosts == HostsOf(a, x, []) && f.jobs[0].status.managed == []
    requires f.jobs[1].plan.hosts == HostsOf(b, y, [])
    requires f.jobs[1].status.managed == [ManagedRecord(b + "/" + x, r.uuid, x, "")]
    requires a != b && a != b + "/" + x && x != y
    ensures Gathered(f) && Uncontested(f, Full(f)) && HandedOver(f, 0, 1, 0, r)
  {
    var j, k := f.jobs[0], f.jobs[1];
    assert j.plan.hosts[0] == HostEntry(a, x) && k.plan.hosts[0] == HostEntry(b, y);
    OneHost(j.plan);
    OneHost(k.plan);
    OneTracked(k, r.description);
    assert Scope(j) == {a};
    OneLeaves(f, r);
    NotThere(f.w.nas.records, r, a);
    assert InTheWay(f.w.nas.records, j, 0, r);
  }

  // --------------------------------------------- obstructed by others for good

  /** Only stale records leave a frontend where another rule has yet to create its record. */
  ghost predicate OnlyStaleLeave(f: Fleet) {
    forall a: nat, b: nat, i, r | HandedOver(f, a, b, i, r) :: r.description !in Descs(f.jobs[b].plan)
  }

  lemma ClearWithFewer(rs: seq<ProxyEntry>, a: set<string>, b: set<string>, plan: Plan, i: nat)
    requires a <= b && b !! Descs(plan) && i < |plan.hosts| && Clear(Drop(rs, a), plan, i)
    ensures Clear(Drop(rs, b), plan, i)
  {
    AtDrop(rs, a, plan.hosts[i].desc);
    AtDrop(rs, b, plan.hosts[i].desc);
    DropMembers(rs, a);
    DropMembers(rs, b);
  }

  lemma ReachGrows(f: Fleet, a: nat)
    requires Team(f) && a < |f.jobs|
    ensures Reaches(f, f.w.nas.records)[a] <= Later(f)[a]
  {
    var plan, stale, k := f.jobs[a].plan, AllStale(f.jobs[a].status, f.jobs[a].plan), Later(f)[a];
    DepartedAlsoSwept(f, a);
    if k < Reaches(f, f.w.nas.records)[a] {
      GoneInScope(f);
      assert stale <= AllGone(f);
      assert Clear(Drop(f.w.nas.records, stale), plan, k);
      ClearWithFewer(f.w.nas.records, stale, AllGone(f), plan, k);
      assert false;
    }
  }

  lemma NeitherStaleNorMoved(f: Fleet, a: nat, i: nat, r: ProxyEntry)
    requires Team(f) && OnlyStaleLeave(f) && a < |f.jobs| && i < |f.jobs[a].plan.hosts|
    requires At(f.w.nas.records, f.jobs[a].plan.hosts[i].desc) == []
    requires r in Departed(f) && SameFrontend(r.frontend, Want(f.jobs[a].plan, i).frontend)
    requires r.description !in DescsUpTo(f.jobs[a].plan, i)
    ensures Unmoved(f, a, i, r)
  {
    DropMembers(f.w.nas.records, AllGone(f));
    if r.description in Scopes(f) {
      var b := WhoseRecord(f, a, i, r);
      ScopeIsTerritory(f.jobs[b]);
      assert r.description !in AllStale(f.jobs[b].status, f.jobs[b].plan);
    }
  }

  lemma LaterIsStuck(f: Fleet, a: nat)
    requires Team(f) && OnlyStaleLeave(f) && a < |f.jobs| && Later(f)[a] < |f.jobs[a].plan.hosts|
    ensures Stuck(f, a, Later(f)[a])
  {
    var plan, stale, i := f.jobs[a].plan, AllStale(f.jobs[a].status, f.jobs[a].plan), Later(f)[a];
    GoneInScope(f);
    DepartedAlsoSwept(f, a);
    AtDrop(f.w.nas.records, AllGone(f), plan.hosts[i].desc);
    assert !Clear(Departed(f), plan, i);
    StillUnclear(f.w.nas.records, stale, AllGone(f), plan, i);
    var wanted := Want(plan, i).frontend;
    if r :| r in Departed(f) && SameFrontend(r.frontend, wanted) && r.description !in DescsUpTo(plan, i) {
      NeitherStaleNorMoved(f, a, i, r);
    }
  }

  lemma StillUnclear(rs: seq<ProxyEntry>, a: set<string>, b: set<string>, plan: Plan, i: nat)
    requires a <= b && b !! Descs(plan) && i < |plan.hosts| && !Clear(Drop(rs, b), plan, i)
    ensures !Clear(Drop(rs, a), plan, i)
  {
    if Clear(Drop(rs, a), plan, i) {
      ClearWithFewer(rs, a, b, plan, i);
    }
  }

  /** Nobody is held up: every rule gets as far at first as when all stale records are gone. */
  ghost predicate NobodyHeldUp(f: Fleet) {
    Reaches(f, f.w.nas.records) == Later(f)
  }

  lemma LaterCaps(f: Fleet)
    requires Team(f) && OnlyStaleLeave(f)
    ensures Caps(f, Later(f)) && OpenTo(f, Departed(f), Later(f))
    ensures NobodyHeldUp(f) ==> Steady(f, Later(f))
  {
    forall a | 0 <= a < |f.jobs| && Later(f)[a] < |f.jobs[a].plan.hosts| ensures Stuck(f, a, Later(f)[a]) {
      LaterIsStuck(f, a);
    }
  }

  lemma HeldUpMatters(f: Fleet, a: nat)
    requires Team(f) && OnlyStaleLeave(f) && Uncontested(f, Later(f))
    requires a < |f.jobs| && Reaches(f, f.w.nas.records)[a] != Later(f)[a]
    ensures !OrderIrrelevant(f) && !AsIfAllAlone(f)
  {
    var one := Everybody(|f.jobs|);
    var i := Reaches(f, f.w.nas.records)[a];
    ReachGrows(f, a);
    LaterCaps(f);
    NextTurnServes(f, Later(f), one, one, a);
    HostPresent(f, Play(f, one + one).w.nas.records, a, i, Later(f));
    MissedOnce(f, a, i, one + one);
  }

  // ----------------------------------------------- a frontend left for good

  /** A rule that leaves a frontend to another does not want it again. */
  ghost predicate NoneReturns(f: Fleet) {
    forall a: nat, b: nat, i: nat, r, k | HandedOver(f, a, b, i, r) && 0 <= k < |f.jobs[b].plan.hosts| ::
      !SameFrontend(Want(f.jobs[b].plan, k).frontend, Want(f.jobs[a].plan, i).frontend)
  }

  ghost predicate Leaves(f: Fleet, a: nat, b: nat, i: nat) {
    exists r :: HandedOver(f, a, b, i, r)
  }

  /** The rules, of the first `n`, with a record at the frontend of host `i` of rule `a`. */
  lemma {:induction false} Leavers(f: Fleet, a: nat, i: nat, n: nat) returns (order: seq<nat>)
    requires n <= |f.jobs|
    ensures Indices(f, order) && a !in order
    ensures forall b | 0 <= b < n :: b in order <==> Leaves(f, a, b, i)
    ensures forall b | b in order :: b < n
  {
    if n == 0 {
      order := [];
    } else {
      order := Leavers(f, a, i, n - 1);
      if Leaves(f, a, n - 1, i) {
        order := order + [n - 1];
      }
    }
  }

  /** Who has had a turn has swept. */
  lemma {:induction false} PlaySweeps(f0: Fleet, order: seq<nat>, b: nat, d: string)
    requires Team(f0) && Indices(f0, order) && b < |f0.jobs| && b in order
    requires d in Scope(f0.jobs[b]) && d !in Descs(f0.jobs[b].plan)
    ensures At(Play(f0, order).w.nas.records, d) == []
  {
    var n := |order| - 1;
    if order[n] != b {
      PlaySweeps(f0, order[..n], b, d);
    }
    PlayOnward(f0, order[..n]);
    NextSweeps(f0, Play(f0, order[..n]), order[n], b, d);
  }

  lemma NextSweeps(f0: Fleet, f: Fleet, mover: nat, b: nat, d: string)
    requires Team(f0) && Onward(f0, f) && mover < |f0.jobs| && b < |f0.jobs|
    requires d in Scope(f0.jobs[b]) && d !in Descs(f0.jobs[b].plan) && (mover == b || At(f.w.nas.records, d) == [])
    ensures At(Turn(f, mover).w.nas.records, d) == []
  {
    var k := TurnOnward(f0, f, mover);
    assert InPlace(f0.w.nas.records, f.w.nas.records, f0.jobs[b].plan, d) || mover == b;
    assert Ahead(f0.w.nas.records, f.w.nas.records, Turn(f, mover).w.nas.records, f0.jobs[b]);
    assert InPlace(f0.w.nas.records, Turn(f, mover).w.nas.records, f0.jobs[b].plan, d);
  }

  lemma UnmovedCorner(f: Fleet, order: seq<nat>, b: nat, d: string)
    requires Team(f) && Indices(f, order) && b < |f.jobs| && b !in order && d in Scope(f.jobs[b])
    ensures At(Play(f, order).w.nas.records, d) == At(f.w.nas.records, d)
    ensures Away(f, b, d)
  {
    PlayOfOthers(f, order, b, d);
  }

  lemma {:induction false} JobUnmoved(f: Fleet, order: seq<nat>, b: nat)
    requires Indices(f, order) && b < |f.jobs| && b !in order
    ensures Play(f, order).jobs[b] == f.jobs[b]
  {
    if order != [] {
      var n := |order| - 1;
      assert order[n] in order;
      JobUnmoved(f, order[..n], b);
    }
  }

  /** Once the leavers have had turns, a record at the frontend was there before and is no
      stale one. */
  lemma BlockerStays(f: Fleet, order: seq<nat>, a: nat, i: nat, r: ProxyEntry)
    requires Team(f) && OnlyStaleLeave(f) && NoneReturns(f) && Indices(f, order) && a !in order
    requires forall b | 0 <= b < |f.jobs| :: b in order <==> Leaves(f, a, b, i)
    requires a < |f.jobs| && i < |f.jobs[a].plan.hosts| && At(f.w.nas.records, f.jobs[a].plan.hosts[i].desc) == []
    requires r in Play(f, order).w.nas.records && SameFrontend(r.frontend, Want(f.jobs[a].plan, i).frontend)
    requires r.description !in AllStale(f.jobs[a].status, f.jobs[a].plan)
    ensures r in Departed(f)
  {
    var rs0, rs, d := f.w.nas.records, Play(f, order).w.nas.records, r.description;
    PlayOnward(f, order);
    DropMembers(rs0, AllGone(f));
    GoneInScope(f);
    if d !in Scopes(f) {
      ForeignRecord(f, rs0, rs, r);
    } else {
      var b :| 0 <= b < |f.jobs| && d in Scope(f.jobs[b]);
      AtMembers(rs, d);
      AtMembers(rs0, d);
      assert r in At(rs, d);
      if b == a {
        UnmovedCorner(f, order, a, d);
        OwnNotGone(f, a, d);
      } else if b !in order {
        UnmovedCorner(f, order, b, d);
        HandsOver(f, a, b, i, r);
      } else {
        LeaverGone(f, order, a, b, i, r);
      }
    }
  }

  lemma HandsOver(f: Fleet, a: nat, b: nat, i: nat, r: ProxyEntry)
    requires Team(f) && a < |f.jobs| && b < |f.jobs| && a != b && i < |f.jobs[a].plan.hosts|
    requires At(f.w.nas.records, f.jobs[a].plan.hosts[i].desc) == []
    requires r in f.w.nas.records && SameFrontend(r.frontend, Want(f.jobs[a].plan, i).frontend)
    requires r.description in Scope(f.jobs[b])
    ensures HandedOver(f, a, b, i, r) && Leaves(f, a, b, i)
  {
    assert Scope(f.jobs[a]) !! Scope(f.jobs[b]);
    assert HandedOver(f, a, b, i, r);
  }

  lemma OwnNotGone(f: Fleet, a: nat, d: string)
    requires Team(f) && a < |f.jobs| && d in Scope(f.jobs[a]) && d !in AllStale(f.jobs[a].status, f.jobs[a].plan)
    ensures d !in AllGone(f)
  {
    ScopeIsTerritory(f.jobs[a]);
    GoneInScope(f);
    assert d in Descs(f.jobs[a].plan);
  }

  lemma LeaverGone(f: Fleet, order: seq<nat>, a: nat, b: nat, i: nat, r: ProxyEntry)
    requires Team(f) && OnlyStaleLeave(f) && NoneReturns(f) && Indices(f, order)
    requires a < |f.jobs| && b < |f.jobs| && a != b && b in order && i < |f.jobs[a].plan.hosts| && Leaves(f, a, b, i)
    requires Onward(f, Play(f, order)) && At(f.w.nas.records, f.jobs[a].plan.hosts[i].desc) == []
    requires r in Play(f, order).w.nas.records && r.description in Scope(f.jobs[b])
    ensures !SameFrontend(r.frontend, Want(f.jobs[a].plan, i).frontend)
  {
    var rs0, rs, d, plan := f.w.nas.records, Play(f, order).w.nas.records, r.description, f.jobs[b].plan;
    AtMembers(rs, d);
    assert r in At(rs, d);
    if d !in Descs(plan) {
      PlaySweeps(f, order, b, d);
    } else if InPlace(rs0, rs, plan, d) {
      LeaverElsewhere(f, rs, a, b, i, r);
    } else {
      PlannedStays(f, order, a, b, i, r);
    }
  }

  lemma LeaverElsewhere(f: Fleet, rs: seq<ProxyEntry>, a: nat, b: nat, i: nat, r: ProxyEntry)
    requires NoneReturns(f) && a < |f.jobs| && b < |f.jobs| && i < |f.jobs[a].plan.hosts| && Leaves(f, a, b, i)
    requires r in rs && InPlace(f.w.nas.records, rs, f.jobs[b].plan, r.description)
    ensures !SameFrontend(r.frontend, Want(f.jobs[a].plan, i).frontend)
  {
    var q :| HandedOver(f, a, b, i, q);
    var k := RecordInPlace(f.w.nas.records, rs, f.jobs[b].plan, |f.jobs[b].plan.hosts|, r);
  }

  lemma PlannedStays(f: Fleet, order: seq<nat>, a: nat, b: nat, i: nat, r: ProxyEntry)
    requires Team(f) && OnlyStaleLeave(f) && Indices(f, order) && a < |f.jobs| && b < |f.jobs| && a != b
    requires i < |f.jobs[a].plan.hosts| && At(f.w.nas.records, f.jobs[a].plan.hosts[i].desc) == []
    requires Onward(f, Play(f, order)) && r in Play(f, order).w.nas.records && r.description in Descs(f.jobs[b].plan)
    requires !InPlace(f.w.nas.records, Play(f, order).w.nas.records, f.jobs[b].plan, r.description)
    ensures !SameFrontend(r.frontend, Want(f.jobs[a].plan, i).frontend)
  {
    var rs0, rs, d := f.w.nas.records, Play(f, order).w.nas.records, r.description;
    assert Underway(rs0, rs, f.jobs[b]);
    AtMembers(rs, d);
    AtMembers(rs0, d);
    assert r in At(rs, d) && r in rs0;
    assert Scope(f.jobs[a]) !! Scope(f.jobs[b]);
    assert SameFrontend(r.frontend, Want(f.jobs[a].plan, i).frontend) ==> HandedOver(f, a, b, i, r);
  }

  /** So the host is clear then, if it is once all stale records are gone. */
  lemma ClearAfterLeavers(f: Fleet, order: seq<nat>, a: nat, i: nat)
    requires Team(f) && OnlyStaleLeave(f) && NoneReturns(f) && Indices(f, order) && a !in order
    requires forall b | 0 <= b < |f.jobs| :: b in order <==> Leaves(f, a, b, i)
    requires a < |f.jobs| && i < |f.jobs[a].plan.hosts| && At(f.w.nas.records, f.jobs[a].plan.hosts[i].desc) == []
    requires Clear(Departed(f), f.jobs[a].plan, i)
    ensures Clear(Drop(Play(f, order).w.nas.records, AllStale(f.jobs[a].status, f.jobs[a].plan)), f.jobs[a].plan, i)
  {
    var plan, stale, rs := f.jobs[a].plan, AllStale(f.jobs[a].status, f.jobs[a].plan), Play(f, order).w.nas.records;
    DropMembers(rs, stale);
    AtDrop(f.w.nas.records, AllGone(f), plan.hosts[i].desc);
    forall r | r in Drop(rs, stale) && SameFrontend(r.frontend, Want(plan, i).frontend) ensures r in Departed(f) {
      BlockerStays(f, order, a, i, r);
    }
  }

  /** What a healthy turn shows of how far it got. */
  lemma TurnTells(w: World, j: Job) returns (k: nat)
    requires Sound(w.nas) && w.script == [] && WellNamed(j.plan)
    ensures k <= |j.plan.hosts|
    ensures
      var swept, rs' := Drop(w.nas.records, AllStale(j.status, j.plan)), RunPlan(w, j.plan, j.status).w.nas.records;
      && Unobstructed(swept, j.plan, k) && (k < |j.plan.hosts| ==> !Clear(swept, j.plan, k))
      && (forall x | 0 <= x < k :: At(rs', j.plan.hosts[x].desc) != [])
      && (k < |j.plan.hosts| ==> At(rs', j.plan.hosts[k].desc) == [])
  {
    k := HealthyTurn(w, j);
    var rs' := RunPlan(w, j.plan, j.status).w.nas.records;
    if k < |j.plan.hosts| {
      StopsShort(w.nas.records, rs', j, k, k);
    }
    forall x | 0 <= x < k ensures At(rs', j.plan.hosts[x].desc) != [] {
      assert Shows(At(w.nas.records, j.plan.hosts[x].desc), At(rs', j.plan.hosts[x].desc), Want(j.plan, x));
    }
  }

  /** A turn of `a` after the leavers differs from its turn at the start at some host. */
  lemma LeaversFirst(f: Fleet, order: seq<nat>, a: nat) returns (x: nat)
    requires Team(f) && OnlyStaleLeave(f) && NoneReturns(f) && Indices(f, order) && a !in order && a < |f.jobs|
    requires
      var i := Reaches(f, f.w.nas.records)[a];
      i < Later(f)[a] && forall b | 0 <= b < |f.jobs| :: b in order <==> Leaves(f, a, b, i)
    ensures x < |f.jobs[a].plan.hosts|
    ensures
      var d := f.jobs[a].plan.hosts[x].desc;
      At(Turn(f, a).w.nas.records, d) == [] <==> At(Turn(Play(f, order), a).w.nas.records, d) != []
  {
    var i, g := Reaches(f, f.w.nas.records)[a], Play(f, order);
    PlayOnward(f, order);
    JobUnmoved(f, order, a);
    MissingAtFirst(f, a, i);
    DepartedAlsoSwept(f, a);
    ClearAfterLeavers(f, order, a, i);
    var k0 := TurnTells(f.w, f.jobs[a]);
    var k := TurnTells(g.w, f.jobs[a]);
    assert k0 == i && k != i;
    x := if k > i then i else k;
  }

  lemma MissingAtFirst(f: Fleet, a: nat, i: nat)
    requires a < |f.jobs| && i < |f.jobs[a].plan.hosts|
    requires !Clear(Drop(f.w.nas.records, AllStale(f.jobs[a].status, f.jobs[a].plan)), f.jobs[a].plan, i)
    ensures At(f.w.nas.records, f.jobs[a].plan.hosts[i].desc) == []
  {
    ScopeIsTerritory(f.jobs[a]);
    AtDrop(f.w.nas.records, AllStale(f.jobs[a].status, f.jobs[a].plan), f.jobs[a].plan.hosts[i].desc);
  }

  /** Turns of others, that of `a`, then the others again: what it left at `d` stays. */
  lemma AmongOthers(f: Fleet, order: seq<nat>, a: nat, rest: seq<nat>, d: string)
    requires Team(f) && a < |f.jobs| && Indices(f, order) && a !in order && Indices(f, rest) && a !in rest
    requires d in Scope(f.jobs[a])
    ensures Indices(f, order + ([a] + rest))
    ensures At(Play(f, order + ([a] + rest)).w.nas.records, d) == At(Turn(Play(f, order), a).w.nas.records, d)
  {
    UnmovedCorner(f, order, a, d);
    PlayOfOthers(f, order, a, d);
    JobUnmoved(f, order, a);
    TurnThenOthers(Play(f, order), a, rest, d);
    PlayAppend(f, order, [a] + rest);
  }

  /** Two ways to a turn of `a` that differ at one of its hosts. */
  lemma TwoWays(f: Fleet, order: seq<nat>, a: nat, d: string)
    requires Team(f) && a < |f.jobs| && Indices(f, order) && a !in order && d in Scope(f.jobs[a])
    requires At(Turn(f, a).w.nas.records, d) == [] <==> At(Turn(Play(f, order), a).w.nas.records, d) != []
    ensures !OrderIrrelevant(f)
  {
    var rest := EverybodyElse(|f.jobs|, a);
    AmongOthers(f, [], a, rest, d);
    AmongOthers(f, order, a, rest, d);
    CompleteAmong(f, order, a, rest);
    CompleteAmong(f, [], a, rest);
    DifferAt(f, order + ([a] + rest), [] + ([a] + rest), d);
  }

  lemma DifferAt(f: Fleet, one: seq<nat>, two: seq<nat>, d: string)
    requires Complete(f, one) && Complete(f, two)
    requires At(Play(f, one).w.nas.records, d) == [] <==> At(Play(f, two).w.nas.records, d) != []
    ensures !OrderIrrelevant(f)
  {
    assert !Alike(Play(f, one).w.nas.records, Play(f, two).w.nas.records, d);
  }

  lemma AloneAndAfter(f: Fleet, order: seq<nat>, a: nat, d: string)
    requires Team(f) && a < |f.jobs| && Indices(f, order) && a !in order && d in Scope(f.jobs[a])
    requires At(Turn(f, a).w.nas.records, d) == [] <==> At(Turn(Play(f, order), a).w.nas.records, d) != []
    ensures !AsIfAllAlone(f)
  {
    var alone := order + ([a] + []);
    AmongOthers(f, order, a, [], d);
    assert alone[|order|] == a;
    assert !Alike(Play(f, alone).w.nas.records, Turn(f, a).w.nas.records, d);
  }

  /** A rule is held up, and those that leave do not return: the order matters, whatever else
      is contested. */
  lemma LeavingMatters(f: Fleet, a: nat)
    requires Team(f) && OnlyStaleLeave(f) && NoneReturns(f)
    requires a < |f.jobs| && Reaches(f, f.w.nas.records)[a] != Later(f)[a]
    ensures !OrderIrrelevant(f) && !AsIfAllAlone(f)
  {
    ReachGrows(f, a);
    var order := Leavers(f, a, Reaches(f, f.w.nas.records)[a], |f.jobs|);
    var x := LeaversFirst(f, order, a);
    assert f.jobs[a].plan.hosts[x].desc in Scope(f.jobs[a]);
    TwoWays(f, order, a, f.jobs[a].plan.hosts[x].desc);
    AloneAndAfter(f, order, a, f.jobs[a].plan.hosts[x].desc);
  }

  lemma CompleteAmong(f: Fleet, order: seq<nat>, a: nat, rest: seq<nat>)
    requires a < |f.jobs| && Indices(f, order) && Indices(f, rest)
    requires forall x | 0 <= x < |f.jobs| && x != a :: x in rest
    ensures Complete(f, order + ([a] + rest))
  {
  }

  /** Whether or not all rules can be served: the order is irrelevant, and company makes no
      difference, exactly when no rule is held up and no frontend contested; provided that, if
      both are the case, the rules that leave a frontend do not want it again. */
  lemma HeldUpExactly(f: Fleet)
    requires Team(f) && OnlyStaleLeave(f) && (NobodyHeldUp(f) || Uncontested(f, Later(f)) || NoneReturns(f))
    ensures OrderIrrelevant(f) <==> NobodyHeldUp(f) && Uncontested(f, Later(f))
    ensures AsIfAllAlone(f) <==> NobodyHeldUp(f) && Uncontested(f, Later(f))
  {
    if NobodyHeldUp(f) {
      LaterCaps(f);
      OrderMattersExactly(f, Later(f));
      CompanyMattersExactly(f, Later(f));
    } else {
      var a :| 0 <= a < |f.jobs| && Reaches(f, f.w.nas.records)[a] != Later(f)[a];
      if NoneReturns(f) {
        LeavingMatters(f, a);
      } else {
        HeldUpMatters(f, a);
      }
    }
  }
}
