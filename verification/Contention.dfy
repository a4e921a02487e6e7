/** Rules that want one frontend: exactly when the order of their passes matters. */
module Contention {
  import opened Dsm
  import opened Client
  import opened Rules
  import opened Sync
  import opened Convergence
  import opened Fleet

  /** Host `i` of rule `a` has no record and wants the frontend of host `k` of rule `b`. */
  ghost predicate Contest(rs: seq<ProxyEntry>, a: Job, b: Job, i: nat, k: nat) {
    && i < |a.plan.hosts| && k < |b.plan.hosts|
    && SameFrontend(Want(a.plan, i).frontend, Want(b.plan, k).frontend)
    && At(rs, a.plan.hosts[i].desc) == []
  }

  // ------------------------------------------------------------- the two rules

  /** A rule that goes first gets past host `i`. */
  ghost predicate GetsPast(rs: seq<ProxyEntry>, j: Job, i: nat) {
    && WellNamed(j.plan) && i < |j.plan.hosts|
    && Unobstructed(Drop(rs, AllStale(j.status, j.plan)), j.plan, i + 1)
  }

  lemma FirstIsServed(w: World, a: Job, i: nat)
    requires w.script == [] && Sound(w.nas) && GetsPast(w.nas.records, a, i)
    ensures
      var p := RunPlan(w, a.plan, a.status);
      && p.w.script == [] && Sound(p.w.nas)
      && |At(p.w.nas.records, a.plan.hosts[i].desc)| == 1
      && SameFrontend(At(p.w.nas.records, a.plan.hosts[i].desc)[0].frontend, Want(a.plan, i).frontend)
  {
    var k := HealthyTurn(w, a);
    var at0, at := At(w.nas.records, a.plan.hosts[i].desc), At(RunPlan(w, a.plan, a.status).w.nas.records,
        a.plan.hosts[i].desc);
    assert i < k;
    ShowsFrontend(at0, at, Want(a.plan, i), at[0]);
  }

  lemma {:induction false} FirstNamed(plan: Plan, i: nat) returns (x: nat)
    requires i < |plan.hosts| && WellNamed(plan)
    ensures x <= i && plan.hosts[x] == plan.hosts[i] && plan.hosts[x].desc !in DescsUpTo(plan, x)
  {
    if plan.hosts[i].desc in DescsUpTo(plan, i) {
      var y :| 0 <= y < i && plan.hosts[y].desc == plan.hosts[i].desc;
      x := FirstNamed(plan, y);
    } else {
      x := i;
    }
  }

  /** Host `i` has no record, and a record that is not the rule's own sits at its frontend. */
  ghost predicate InTheWay(rs: seq<ProxyEntry>, j: Job, i: nat, r: ProxyEntry) {
    && i < |j.plan.hosts| && At(rs, j.plan.hosts[i].desc) == []
    && r in rs && r.description !in Scope(j)
    && SameFrontend(r.frontend, Want(j.plan, i).frontend)
  }

  lemma InTheWayBlocks(rs: seq<ProxyEntry>, j: Job, i: nat, r: ProxyEntry) returns (x: nat)
    requires WellNamed(j.plan) && InTheWay(rs, j, i, r)
    ensures x < |j.plan.hosts| && j.plan.hosts[x] == j.plan.hosts[i]
    ensures !Clear(Drop(rs, AllStale(j.status, j.plan)), j.plan, x)
  {
    var stale := AllStale(j.status, j.plan);
    x := FirstNamed(j.plan, i);
    ScopeIsTerritory(j);
    AtDrop(rs, stale, j.plan.hosts[x].desc);
    DropMembers(rs, stale);
    assert r in Drop(rs, stale) && SameFrontend(r.frontend, Want(j.plan, x).frontend);
  }

  lemma SecondIsBlocked(w: World, a: Job, b: Job, i: nat, k: nat)
    requires w.script == [] && Sound(w.nas) && WellNamed(a.plan)
    requires Scope(a) !! Scope(b) && i < |a.plan.hosts| && k < |b.plan.hosts|
    requires SameFrontend(Want(a.plan, i).frontend, Want(b.plan, k).frontend)
    requires At(w.nas.records, a.plan.hosts[i].desc) == []
    requires |At(w.nas.records, b.plan.hosts[k].desc)| == 1
    requires SameFrontend(At(w.nas.records, b.plan.hosts[k].desc)[0].frontend, Want(b.plan, k).frontend)
    ensures
      var p := RunPlan(w, a.plan, a.status);
      p.halt != Running && At(p.w.nas.records, a.plan.hosts[i].desc) == []
  {
    assert b.plan.hosts[k].desc in Scope(b);
    AtMembers(w.nas.records, b.plan.hosts[k].desc);
    var r := At(w.nas.records, b.plan.hosts[k].desc)[0];
    assert r in At(w.nas.records, b.plan.hosts[k].desc);
    var x := InTheWayBlocks(w.nas.records, a, i, r);
    UnclearTurn(w, a, x);
  }

  lemma UnclearTurn(w: World, j: Job, i: nat)
    requires w.script == [] && Sound(w.nas) && WellNamed(j.plan) && i < |j.plan.hosts|
    requires !Clear(Drop(w.nas.records, AllStale(j.status, j.plan)), j.plan, i)
    ensures
      var p := RunPlan(w, j.plan, j.status);
      p.halt != Running && At(p.w.nas.records, j.plan.hosts[i].desc) == []
  {
    var k := HealthyTurn(w, j);
    StopsShort(w.nas.records, RunPlan(w, j.plan, j.status).w.nas.records, j, i, k);
  }

  /** Of two rules in a contest the one with the missing record gets it when it goes first;
      after the other it neither finishes nor gets it. */
  lemma SharedFrontendMatters(w: World, a: Job, b: Job, i: nat, k: nat)
    requires w.script == [] && Sound(w.nas) && Scope(a) !! Scope(b)
    requires GetsPast(w.nas.records, a, i) && GetsPast(w.nas.records, b, k) && Contest(w.nas.records, a, b, i, k)
    ensures
      var d := a.plan.hosts[i].desc;
      var first := RunPlan(w, a.plan, a.status);
      var second := RunPlan(RunPlan(w, b.plan, b.status).w, a.plan, a.status);
      && At(first.w.nas.records, d) != []
      && second.halt != Running && At(second.w.nas.records, d) == []
  {
    FirstIsServed(w, a, i);
    FirstIsServed(w, b, k);
    PassFrame(w, b, a.plan.hosts[i].desc);
    SecondIsBlocked(RunPlan(w, b.plan, b.status).w, a, b, i, k);
  }

  // ---------------------------------------------------------- turns of others

  /** A pass on any network leaves the records outside the rule's scope, and its scope does not
      grow. */
  lemma PassFrame(w: World, j: Job, d: string)
    requires Sound(w.nas) && WellNamed(j.plan) && d !in Scope(j)
    ensures
      var p := RunPlan(w, j.plan, j.status);
      && Sound(p.w.nas)
      && At(p.w.nas.records, d) == At(w.nas.records, d)
      && d !in Scope(Job(j.plan, p.status))
  {
    var failed := PassEffect(w, j.plan, j.status);
    var p := RunPlan(w, j.plan, j.status);
    ScopeIsTerritory(j);
    if p.halt == Running {
      SublistMembers(failed, j.status.managed);
      var n := |j.plan.hosts|;
      forall m | m in p.status.managed ensures m.description != d {
        var x :| 0 <= x < |p.status.managed| && p.status.managed[x] == m;
        if x < n {
          assert p.status.managed[..n][x].description == j.plan.hosts[x].desc;
        } else {
          assert p.status.managed[n..][x - n] in failed;
        }
      }
    }
  }

  /** All rules but `i` keep away from `d`. */
  ghost predicate Away(f: Fleet, i: nat, d: string) {
    && Sound(f.w.nas)
    && forall x | 0 <= x < |f.jobs| && x != i :: WellNamed(f.jobs[x].plan) && d !in Scope(f.jobs[x])
  }

  lemma {:induction false} PlayOfOthers(f: Fleet, order: seq<nat>, i: nat, d: string)
    requires Indices(f, order) && i !in order && Away(f, i, d)
    ensures Away(Play(f, order), i, d)
    ensures At(Play(f, order).w.nas.records, d) == At(f.w.nas.records, d)
  {
    if order != [] {
      var n := |order| - 1;
      assert order[n] in order;
      PlayOfOthers(f, order[..n], i, d);
      var g := Play(f, order[..n]);
      PassFrame(g.w, g.jobs[order[n]], d);
    }
  }

  lemma PlaySnoc(f: Fleet, order: seq<nat>, i: nat)
    requires Indices(f, order) && i < |f.jobs|
    ensures Indices(f, order + [i]) && Play(f, order + [i]) == Turn(Play(f, order), i)
  {
    assert (order + [i])[..|order|] == order;
  }

  lemma AppendOne(f: Fleet, a: seq<nat>, b: seq<nat>, n: nat)
    requires Indices(f, a) && Indices(f, b) && |b| == n + 1
    requires Indices(f, a + b[..n]) && Play(f, a + b[..n]) == Play(Play(f, a), b[..n])
    ensures Indices(f, a + b) && Play(f, a + b) == Play(Play(f, a), b)
  {
    PlaySnoc(f, a + b[..n], b[n]);
    LastApart(a, b, n);
  }

  lemma LastApart(a: seq<nat>, b: seq<nat>, n: nat)
    requires |b| == n + 1
    ensures a + b == (a + b[..n]) + [b[n]]
  {
  }

  lemma {:induction false} PlayAppend(f: Fleet, a: seq<nat>, b: seq<nat>)
    requires Indices(f, a) && Indices(f, b)
    ensures Indices(f, a + b) && Play(f, a + b) == Play(Play(f, a), b)
  {
    if b == [] {
      assert a + b == a;
    } else {
      var n := |b| - 1;
      PlayAppend(f, a, b[..n]);
      AppendOne(f, a, b, n);
    }
  }

  lemma PlayOne(f: Fleet, i: nat)
    requires i < |f.jobs|
    ensures Indices(f, [i]) && Play(f, [i]) == Turn(f, i)
  {
    assert [i][..0] == [];
  }

  // ------------------------------------------------------------------ the fleet

  predicate Complete(f: Fleet, order: seq<nat>) {
    Indices(f, order) && forall i | 0 <= i < |f.jobs| :: i in order
  }

  ghost predicate OrderIrrelevant(f: Fleet) {
    forall one, two, d | Complete(f, one) && Complete(f, two) ::
      Alike(Play(f, one).w.nas.records, Play(f, two).w.nas.records, d)
  }

  /** Everybody's turn, with that of `i` given to `k`. */
  function Others(n: nat, i: nat, k: nat): (r: seq<nat>)
    requires i < n && k < n && i != k
    ensures |r| == n && forall x | 0 <= x < n :: r[x] == if x == i then k else x
  {
    seq(n, x requires 0 <= x < n => if x == i then k else x)
  }

  lemma OthersAll(n: nat, i: nat, k: nat)
    requires i < n && k < n && i != k
    ensures i !in Others(n, i, k) && forall x | 0 <= x < n && x != i :: x in Others(n, i, k)
  {
    var r := Others(n, i, k);
    forall x | 0 <= x < n && x != i ensures x in r {
      assert r[x] == x;
    }
  }

  /** The turn of `i`, then turns of others: what it left at `d` stays. */
  lemma TurnThenOthers(f: Fleet, i: nat, rest: seq<nat>, d: string)
    requires i < |f.jobs| && Indices(f, rest) && i !in rest
    requires Away(f, i, d) && WellNamed(f.jobs[i].plan)
    ensures Indices(f, [i] + rest)
    ensures At(Play(f, [i] + rest).w.nas.records, d) == At(Turn(f, i).w.nas.records, d)
  {
    PassSound(f.w, f.jobs[i]);
    PlayOne(f, i);
    PlayAppend(f, [i], rest);
    assert Away(Turn(f, i), i, d);
    PlayOfOthers(Turn(f, i), rest, i, d);
  }

  lemma OtherThenTurn(f: Fleet, b: nat, a: nat, rest: seq<nat>, d: string)
    requires a < |f.jobs| && b < |f.jobs| && a != b && Indices(f, rest) && a !in rest
    requires Away(f, a, d) && WellNamed(f.jobs[a].plan)
    ensures Indices(f, [b] + ([a] + rest))
    ensures At(Play(f, [b] + ([a] + rest)).w.nas.records, d) == At(Turn(Turn(f, b), a).w.nas.records, d)
  {
    PlayOne(f, b);
    PlayOfOthers(f, [b], a, d);
    TurnThenOthers(Turn(f, b), a, rest, d);
    PlayAppend(f, [b], [a] + rest);
  }

  lemma TeamAway(f: Fleet, a: nat, i: nat)
    requires Team(f) && a < |f.jobs| && i < |f.jobs[a].plan.hosts|
    ensures Away(f, a, f.jobs[a].plan.hosts[i].desc)
  {
    assert f.jobs[a].plan.hosts[i].desc in Scope(f.jobs[a]);
  }

  /** Two rules of a steady fleet in a contest before they are stuck. */
  ghost predicate Contested(f: Fleet, far: seq<nat>, a: nat, b: nat, i: nat, k: nat) {
    && |far| == |f.jobs| && a < |f.jobs| && b < |f.jobs| && a != b && i < far[a] && k < far[b]
    && Contest(f.w.nas.records, f.jobs[a], f.jobs[b], i, k)
  }

  lemma SteadyGetsPast(f: Fleet, far: seq<nat>, a: nat, i: nat)
    requires Steady(f, far) && a < |f.jobs| && i < far[a]
    ensures GetsPast(f.w.nas.records, f.jobs[a], i)
  {
  }

  lemma ContestedTurns(f: Fleet, far: seq<nat>, a: nat, b: nat, i: nat, k: nat)
    requires Steady(f, far) && Contested(f, far, a, b, i, k)
    ensures
      var d := f.jobs[a].plan.hosts[i].desc;
      && At(Turn(f, a).w.nas.records, d) != []
      && At(Turn(Turn(f, b), a).w.nas.records, d) == []
  {
    SteadyGetsPast(f, far, a, i);
    SteadyGetsPast(f, far, b, k);
    SharedFrontendMatters(f.w, f.jobs[a], f.jobs[b], i, k);
  }

  /** Every rule has its turns, and yet what is at `d` depends on the order. */
  lemma Disagree(f: Fleet, one: seq<nat>, two: seq<nat>, d: string)
    requires Complete(f, one) && Complete(f, two)
    requires At(Play(f, one).w.nas.records, d) != [] && At(Play(f, two).w.nas.records, d) == []
    ensures !OrderIrrelevant(f)
  {
    assert !Alike(Play(f, one).w.nas.records, Play(f, two).w.nas.records, d);
  }

  lemma ContestedOrders(f: Fleet, far: seq<nat>, a: nat, b: nat, i: nat, k: nat)
    requires Steady(f, far) && Contested(f, far, a, b, i, k)
    ensures !OrderIrrelevant(f)
  {
    var rest := Others(|f.jobs|, a, b);
    var d := f.jobs[a].plan.hosts[i].desc;
    OthersAll(|f.jobs|, a, b);
    TeamAway(f, a, i);
    ContestedTurns(f, far, a, b, i, k);
    TurnThenOthers(f, a, rest, d);
    OtherThenTurn(f, b, a, rest, d);
    CompleteWith(f, a, b, rest);
    Disagree(f, [a] + rest, [b] + ([a] + rest), d);
  }

  lemma CompleteWith(f: Fleet, a: nat, b: nat, rest: seq<nat>)
    requires a < |f.jobs| && b < |f.jobs| && Indices(f, rest)
    requires forall x | 0 <= x < |f.jobs| && x != a :: x in rest
    ensures Complete(f, [a] + rest) && Complete(f, [b] + ([a] + rest))
  {
  }

  lemma PassSound(w: World, j: Job)
    requires Sound(w.nas) && WellNamed(j.plan)
    ensures Sound(RunPlan(w, j.plan, j.status).w.nas)
  {
    var failed := PassEffect(w, j.plan, j.status);
  }

  lemma UncontestedAgree(f: Fleet, far: seq<nat>)
    requires Steady(f, far) && Uncontested(f, far)
    ensures OrderIrrelevant(f)
  {
    forall one, two, d | Complete(f, one) && Complete(f, two)
      ensures Alike(Play(f, one).w.nas.records, Play(f, two).w.nas.records, d)
    {
      OrderDoesNotMatter(f, far, one, two, d);
    }
  }

  lemma SomeContest(f: Fleet, far: seq<nat>) returns (a: nat, b: nat, i: nat, k: nat)
    requires Steady(f, far) && !Uncontested(f, far)
    ensures Contested(f, far, a, b, i, k)
  {
    a, b :| 0 <= a < |far| && 0 <= b < |far| && a != b
      && !InPlaceAgainst(f.w.nas.records, f.jobs[a].plan, f.jobs[b].plan, far[a], far[b]);
    i, k :| 0 <= i < far[a] && 0 <= k < far[b]
      && SameFrontend(Want(f.jobs[a].plan, i).frontend, Want(f.jobs[b].plan, k).frontend)
      && At(f.w.nas.records, f.jobs[a].plan.hosts[i].desc) == [];
  }

  /** Of rules with disjoint descriptions that are unobstructed up to where they are stuck for
      good, the order of passes is irrelevant exactly when no two want, before that, a
      frontend that one of them has yet to create its record at. */
  lemma OrderMattersExactly(f: Fleet, far: seq<nat>)
    requires Steady(f, far)
    ensures OrderIrrelevant(f) <==> Uncontested(f, far)
  {
    if Uncontested(f, far) {
      UncontestedAgree(f, far);
    } else {
      var a, b, i, k := SomeContest(f, far);
      ContestedOrders(f, far, a, b, i, k);
    }
  }

  /** Every rule that has had a turn finds its corner of DSM as if it had run alone. */
  ghost predicate AsIfAllAlone(f: Fleet) {
    forall order, i, d | Indices(f, order) && 0 <= i < |f.jobs| && i in order && d in Scope(f.jobs[i]) ::
      Alike(Play(f, order).w.nas.records, Turn(f, i).w.nas.records, d)
  }

  lemma UncontestedAlone(f: Fleet, far: seq<nat>)
    requires Steady(f, far) && Uncontested(f, far)
    ensures AsIfAllAlone(f)
  {
    forall order, i, d | Indices(f, order) && 0 <= i < |f.jobs| && i in order && d in Scope(f.jobs[i])
      ensures Alike(Play(f, order).w.nas.records, Turn(f, i).w.nas.records, d)
    {
      AsIfAlone(f, far, order, i, d);
    }
  }

  lemma ContestedAlone(f: Fleet, far: seq<nat>, a: nat, b: nat, i: nat, k: nat)
    requires Steady(f, far) && Contested(f, far, a, b, i, k)
    ensures !AsIfAllAlone(f)
  {
    var d := f.jobs[a].plan.hosts[i].desc;
    var order := [b] + ([a] + []);
    TeamAway(f, a, i);
    ContestedTurns(f, far, a, b, i, k);
    OtherThenTurn(f, b, a, [], d);
    assert order[1] == a;
    NotAlone(f, order, a, d);
  }

  lemma NotAlone(f: Fleet, order: seq<nat>, a: nat, d: string)
    requires Indices(f, order) && a < |f.jobs| && a in order && d in Scope(f.jobs[a])
    requires At(Turn(f, a).w.nas.records, d) != [] && At(Play(f, order).w.nas.records, d) == []
    ensures !AsIfAllAlone(f)
  {
    assert !Alike(Play(f, order).w.nas.records, Turn(f, a).w.nas.records, d);
  }

  /** And under the same condition, and only then, company makes no difference. */
  lemma CompanyMattersExactly(f: Fleet, far: seq<nat>)
    requires Steady(f, far)
    ensures AsIfAllAlone(f) <==> Uncontested(f, far)
  {
    if Uncontested(f, far) {
      UncontestedAlone(f, far);
    } else {
      var a, b, i, k := SomeContest(f, far);
      ContestedAlone(f, far, a, b, i, k);
    }
  }
}
