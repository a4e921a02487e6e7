/** Several rules over one DSM: what their passes, in any order and with repetitions, make
    of it. */
module Fleet {
  import opened Dsm
  import opened Client
  import opened Rules
  import opened Sync
  import opened Convergence

  datatype Job = Job(plan: Plan, status: Status)

  datatype Fleet = Fleet(w: World, jobs: seq<Job>)

  /** One pass of rule `i`, whose status write lands. */
  function Turn(f: Fleet, i: nat): Fleet
    requires i < |f.jobs|
  {
    var p := RunPlan(f.w, f.jobs[i].plan, f.jobs[i].status);
    Fleet(p.w, f.jobs[i := Job(f.jobs[i].plan, p.status)])
  }

  predicate Indices(f: Fleet, order: seq<nat>) {
    forall k | 0 <= k < |order| :: order[k] < |f.jobs|
  }

  function Play(f: Fleet, order: seq<nat>): (r: Fleet)
    requires Indices(f, order)
    ensures |r.jobs| == |f.jobs|
  {
    if order == [] then f else Turn(Play(f, order[..|order| - 1]), order[|order| - 1])
  }

  function Scope(j: Job): set<string> {
    Mine(j.status, j.plan)
  }

  function Scopes(f: Fleet): set<string> {
    set i, d | 0 <= i < |f.jobs| && d in Scope(f.jobs[i]) :: d
  }

  /** Wherever the first `m` hosts of `a` and the first `n` of `b` want one frontend, `a` has
      its record already: an update is not refused for a frontend that is taken. */
  ghost predicate InPlaceAgainst(rs: seq<ProxyEntry>, a: Plan, b: Plan, m: nat, n: nat) {
    && m <= |a.hosts| && n <= |b.hosts|
    && forall i, k | 0 <= i < m && 0 <= k < n ::
         SameFrontend(Want(a, i).frontend, Want(b, k).frontend) ==> At(rs, a.hosts[i].desc) != []
  }

  /** Rules with disjoint descriptions, and a healthy network. */
  ghost predicate Team(f: Fleet) {
    && f.w.script == [] && Sound(f.w.nas)
    && (forall i | 0 <= i < |f.jobs| :: WellNamed(f.jobs[i].plan))
    && (forall i, k | 0 <= i < |f.jobs| && 0 <= k < |f.jobs| && i != k :: Scope(f.jobs[i]) !! Scope(f.jobs[k]))
  }

  /** Of the hosts before `far`, no two of different rules want a frontend that one of them
      has yet to create a record at. */
  ghost predicate Uncontested(f: Fleet, far: seq<nat>) {
    && |far| == |f.jobs|
    && forall i, k | 0 <= i < |far| && 0 <= k < |far| && i != k ::
         InPlaceAgainst(f.w.nas.records, f.jobs[i].plan, f.jobs[k].plan, far[i], far[k])
  }

  // -------------------------------------------------------------- one turn

  /** A rule's scope is what its pass may touch. */
  lemma ScopeIsTerritory(j: Job)
    ensures Scope(j) == Territory(j.status, j.plan)
    ensures AllStale(j.status, j.plan) !! Descs(j.plan)
  {
    forall d | d in AllStale(j.status, j.plan) ensures d in Scope(j) {
      var i :| 0 <= i < |j.status.managed| && j.status.managed[i].description == d;
      assert j.status.managed[i] in j.status.managed;
    }
    forall d | d in Scope(j) ensures d in Territory(j.status, j.plan) {
      if d !in Descs(j.plan) {
        var m :| m in j.status.managed && m.description == d;
        var i :| 0 <= i < |j.status.managed| && j.status.managed[i] == m;
      }
    }
  }

  lemma TrackedScope(nas: Nas, j: Job)
    requires Tracks(nas, j.plan, j.status.managed, |j.plan.hosts|)
    ensures Scope(j) == Descs(j.plan)
  {
    forall m | m in j.status.managed ensures m.description in Descs(j.plan) {
      var i :| 0 <= i < |j.status.managed| && j.status.managed[i] == m;
    }
  }

  /** One record, as wanted; one that was as wanted before is as it was. */
  predicate Shows(at0: seq<ProxyEntry>, at: seq<ProxyEntry>, e: ProxyEntry) {
    |at| == 1 && Face(at[0]) == Goal(at0, e)
  }

  lemma ShowsAgain(at0: seq<ProxyEntry>, at1: seq<ProxyEntry>, at2: seq<ProxyEntry>, e: ProxyEntry)
    requires Shows(at0, at1, e) && Shows(at1, at2, e)
    ensures Shows(at0, at2, e)
  {
    assert at1[0].frontend == Face(at1[0]).frontend;
  }

  /** A turn gets as far as host `k`: its stale records are gone, the hosts before `k` are
      as wanted and everything else is as before. */
  ghost predicate GetsTo(rs: seq<ProxyEntry>, rs': seq<ProxyEntry>, j: Job, k: nat) {
    var swept := Drop(rs, AllStale(j.status, j.plan));
    && k <= |j.plan.hosts| && Unobstructed(swept, j.plan, k)
    && (k < |j.plan.hosts| ==> !Clear(swept, j.plan, k))
    && Drop(rs', Scope(j)) == Drop(rs, Scope(j))
    && (forall d | d !in Scope(j) :: At(rs', d) == At(rs, d))
    && (forall d | d in Scope(j) && d !in Descs(j.plan) :: At(rs', d) == [])
    && (forall d | d in Descs(j.plan) && d !in DescsUpTo(j.plan, k) :: At(rs', d) == At(rs, d))
    && (forall i | 0 <= i < k :: Shows(At(rs, j.plan.hosts[i].desc), At(rs', j.plan.hosts[i].desc), Want(j.plan, i)))
  }

  /** A rule gets no further than a host that is not clear. */
  lemma StopsShort(rs: seq<ProxyEntry>, rs': seq<ProxyEntry>, j: Job, i: nat, k: nat)
    requires i < |j.plan.hosts| && !Clear(Drop(rs, AllStale(j.status, j.plan)), j.plan, i) && GetsTo(rs, rs', j, k)
    ensures k <= i && At(rs', j.plan.hosts[i].desc) == []
  {
    ScopeIsTerritory(j);
    AtDrop(rs, AllStale(j.status, j.plan), j.plan.hosts[i].desc);
    assert k <= i;
    assert j.plan.hosts[i].desc !in DescsUpTo(j.plan, k);
  }

  /** How far the hosts of a healthy pass get. */
  lemma HostsGetTo(w: World, plan: Plan, managed: seq<ManagedRecord>) returns (k: nat)
    requires Sound(w.nas) && WellNamed(plan) && w.script == []
    ensures k <= |plan.hosts| && Unobstructed(w.nas.records, plan, k)
    ensures k < |plan.hosts| ==> !Clear(w.nas.records, plan, k)
    ensures
      var s := SyncHosts(w, plan, managed, |plan.hosts|);
      && s.w.script == [] && Sound(s.w.nas)
      && (s.halt == Running <==> k == |plan.hosts|)
      && Reached(w.nas.records, s.w.nas, plan, k)
      && Drop(s.w.nas.records, DescsUpTo(plan, k)) == Drop(w.nas.records, DescsUpTo(plan, k))
  {
    k := |plan.hosts|;
    SyncHealthy(w, plan, managed, k);
    SyncHostsEffect(w, plan, managed, k);
    if SyncHosts(w, plan, managed, k).halt != Running {
      k := StopsAt(w, plan, managed);
      SyncHealthy(w, plan, managed, k);
      SyncHostsEffect(w, plan, managed, k);
    }
  }

  /** A sweep, then changes at `ds`. */
  lemma SweptThenChanged(rs: seq<ProxyEntry>, stale: set<string>, rs': seq<ProxyEntry>, ds: set<string>,
      all: set<string>)
    requires Drop(rs', ds) == Drop(Drop(rs, stale), ds) && ds + stale <= all
    ensures forall d | d !in ds :: At(rs', d) == if d in stale then [] else At(rs, d)
    ensures Drop(rs', all) == Drop(rs, all)
  {
    forall d | d !in ds ensures At(rs', d) == if d in stale then [] else At(rs, d) {
      AtDrop(rs, stale, d);
      AtFrame(rs', Drop(rs, stale), ds, d);
    }
    DropWider(rs', Drop(rs, stale), ds, all);
    DropDrop(rs, stale, all);
    assert stale + all == all;
  }

  lemma SweptThenShows(rs: seq<ProxyEntry>, stale: set<string>, nas: Nas, plan: Plan, k: nat)
    requires k <= |plan.hosts| && stale !! Descs(plan) && Reached(Drop(rs, stale), nas, plan, k)
    ensures forall i | 0 <= i < k ::
      Shows(At(rs, plan.hosts[i].desc), At(nas.records, plan.hosts[i].desc), Want(plan, i))
  {
    forall i | 0 <= i < k ensures At(Drop(rs, stale), plan.hosts[i].desc) == At(rs, plan.hosts[i].desc) {
      AtDrop(rs, stale, plan.hosts[i].desc);
    }
  }

  lemma SweptThenSynced(rs: seq<ProxyEntry>, nas: Nas, j: Job, k: nat)
    requires k <= |j.plan.hosts|
    requires
      var swept := Drop(rs, AllStale(j.status, j.plan));
      && Unobstructed(swept, j.plan, k) && (k < |j.plan.hosts| ==> !Clear(swept, j.plan, k))
      && Reached(swept, nas, j.plan, k)
      && Drop(nas.records, DescsUpTo(j.plan, k)) == Drop(swept, DescsUpTo(j.plan, k))
    ensures GetsTo(rs, nas.records, j, k)
  {
    var stale := AllStale(j.status, j.plan);
    ScopeIsTerritory(j);
    assert DescsUpTo(j.plan, k) <= Descs(j.plan);
    SweptThenChanged(rs, stale, nas.records, DescsUpTo(j.plan, k), Scope(j));
    SweptThenShows(rs, stale, nas, j.plan, k);
  }

  lemma HealthyTurn(w: World, j: Job) returns (k: nat)
    requires Sound(w.nas) && w.script == [] && WellNamed(j.plan)
    ensures
      var p := RunPlan(w, j.plan, j.status);
      && p.w.script == [] && Sound(p.w.nas)
      && GetsTo(w.nas.records, p.w.nas.records, j, k)
      && (k < |j.plan.hosts| ==> p.halt != Running && p.status == j.status)
      && (k == |j.plan.hosts| ==> p.halt == Running && Scope(Job(j.plan, p.status)) == Descs(j.plan))
  {
    var managed, stale := j.status.managed, AllStale(j.status, j.plan);
    SweepHealthy(w, managed, Descs(j.plan), |managed|);
    DropKeepsSound(w.nas, stale);
    k := HostsGetTo(Sweep(w, managed, Descs(j.plan), |managed|).w, j.plan, managed);
    var p := RunPlan(w, j.plan, j.status);
    SweptThenSynced(w.nas.records, p.w.nas, j, k);
    if k == |j.plan.hosts| {
      HealthyPass(w, j.plan, j.status);
      TrackedScope(p.w.nas, Job(j.plan, p.status));
    }
  }

  // ------------------------------------------------------ where a rule stands

  /** DSM shows under `d` what the rule wants there. */
  ghost predicate InPlace(rs0: seq<ProxyEntry>, rs: seq<ProxyEntry>, plan: Plan, d: string) {
    && (d !in Descs(plan) ==> At(rs, d) == [])
    && (forall i | 0 <= i < |plan.hosts| && plan.hosts[i].desc == d :: Shows(At(rs0, d), At(rs, d), Want(plan, i)))
  }

  /** Each description of the rule is done or as at first, and the hosts behind a missing
      one are as at first. */
  ghost predicate Underway(rs0: seq<ProxyEntry>, rs: seq<ProxyEntry>, j0: Job) {
    && (forall d | d in Scope(j0) :: At(rs, d) == At(rs0, d) || InPlace(rs0, rs, j0.plan, d))
    && (forall i, d | 0 <= i < |j0.plan.hosts| && At(rs, j0.plan.hosts[i].desc) == []
            && d in Descs(j0.plan) && d !in DescsUpTo(j0.plan, i) :: At(rs, d) == At(rs0, d))
  }

  /** What the rule no longer tracks or wants is gone. */
  ghost predicate Accounts(rs: seq<ProxyEntry>, j0: Job, j: Job) {
    && j.plan == j0.plan && Scope(j) <= Scope(j0)
    && forall d | d in Scope(j0) && d !in Scope(j) :: At(rs, d) == []
  }

  /** What was done is done. */
  ghost predicate Ahead(rs0: seq<ProxyEntry>, rs: seq<ProxyEntry>, rs': seq<ProxyEntry>, j0: Job) {
    forall d | d in Scope(j0) && InPlace(rs0, rs, j0.plan, d) :: InPlace(rs0, rs', j0.plan, d)
  }

  /** The stale records and the first `k` hosts are done. */
  ghost predicate InPlaceUpTo(rs0: seq<ProxyEntry>, rs: seq<ProxyEntry>, j0: Job, k: nat)
    requires k <= |j0.plan.hosts|
  {
    forall d | d in Scope(j0) && (d in Descs(j0.plan) ==> d in DescsUpTo(j0.plan, k)) :: InPlace(rs0, rs, j0.plan, d)
  }

  lemma ReachedIsDone(rs0: seq<ProxyEntry>, rs: seq<ProxyEntry>, rs': seq<ProxyEntry>, j0: Job, i: nat)
    requires WellNamed(j0.plan) && i < |j0.plan.hosts| && Underway(rs0, rs, j0)
    requires Shows(At(rs, j0.plan.hosts[i].desc), At(rs', j0.plan.hosts[i].desc), Want(j0.plan, i))
    ensures InPlace(rs0, rs', j0.plan, j0.plan.hosts[i].desc)
  {
    var d := j0.plan.hosts[i].desc;
    assert d in Scope(j0);
    forall x | 0 <= x < |j0.plan.hosts| && j0.plan.hosts[x].desc == d
      ensures Shows(At(rs0, d), At(rs', d), Want(j0.plan, x))
    {
      assert j0.plan.hosts[x] == j0.plan.hosts[i];
      if At(rs, d) != At(rs0, d) {
        ShowsAgain(At(rs0, d), At(rs, d), At(rs', d), Want(j0.plan, x));
      }
    }
  }

  lemma OwnGains(rs0: seq<ProxyEntry>, rs: seq<ProxyEntry>, rs': seq<ProxyEntry>, j0: Job, j: Job, k: nat)
    requires WellNamed(j0.plan) && Underway(rs0, rs, j0) && Accounts(rs, j0, j) && GetsTo(rs, rs', j, k)
    ensures InPlaceUpTo(rs0, rs', j0, k)
    ensures forall d | d in Scope(j0) && d !in Descs(j0.plan) :: At(rs', d) == []
  {
    forall d | d in DescsUpTo(j0.plan, k) ensures InPlace(rs0, rs', j0.plan, d) {
      var i :| 0 <= i < k && j0.plan.hosts[i].desc == d;
      ReachedIsDone(rs0, rs, rs', j0, i);
    }
  }

  /** A rule's own turn. */
  lemma OwnTurn(rs0: seq<ProxyEntry>, rs: seq<ProxyEntry>, rs': seq<ProxyEntry>, j0: Job, j: Job, k: nat)
    requires WellNamed(j0.plan) && Underway(rs0, rs, j0) && Accounts(rs, j0, j) && GetsTo(rs, rs', j, k)
    ensures InPlaceUpTo(rs0, rs', j0, k) && Ahead(rs0, rs, rs', j0) && Underway(rs0, rs', j0)
    ensures forall d | d in Scope(j0) && d !in Descs(j0.plan) :: At(rs', d) == []
    ensures Accounts(rs', j0, j)
  {
    var plan := j0.plan;
    OwnGains(rs0, rs, rs', j0, j, k);
    forall i, d | 0 <= i < |plan.hosts| && At(rs', plan.hosts[i].desc) == [] && d in Descs(plan)
      && d !in DescsUpTo(plan, i)
      ensures At(rs', d) == At(rs0, d)
    {
      assert plan.hosts[i].desc !in DescsUpTo(plan, k);
      assert d !in DescsUpTo(plan, k);
    }
  }

  // ------------------------------------------------------------------ the fleet

  /** A record list that turns can have made of the first one. */
  ghost predicate Between(f0: Fleet, rs: seq<ProxyEntry>) {
    && Drop(rs, Scopes(f0)) == Drop(f0.w.nas.records, Scopes(f0))
    && forall i | 0 <= i < |f0.jobs| :: Underway(f0.w.nas.records, rs, f0.jobs[i])
  }

  ghost predicate AllAhead(f0: Fleet, rs: seq<ProxyEntry>, rs': seq<ProxyEntry>) {
    forall i | 0 <= i < |f0.jobs| :: Ahead(f0.w.nas.records, rs, rs', f0.jobs[i])
  }

  ghost predicate Onward(f0: Fleet, f: Fleet) {
    && Sound(f.w.nas) && f.w.script == [] && |f.jobs| == |f0.jobs|
    && Between(f0, f.w.nas.records)
    && forall i | 0 <= i < |f0.jobs| :: Accounts(f.w.nas.records, f0.jobs[i], f.jobs[i])
  }

  lemma StartOnward(f0: Fleet)
    requires Team(f0)
    ensures Onward(f0, f0)
  {
  }

  /** A list on the way is ahead of the first one. */
  lemma StartIsBehind(f0: Fleet, rs: seq<ProxyEntry>)
    requires Between(f0, rs)
    ensures AllAhead(f0, f0.w.nas.records, rs)
  {
    forall i, d | 0 <= i < |f0.jobs| && d in Scope(f0.jobs[i])
      && InPlace(f0.w.nas.records, f0.w.nas.records, f0.jobs[i].plan, d)
      ensures InPlace(f0.w.nas.records, rs, f0.jobs[i].plan, d)
    {
      assert Underway(f0.w.nas.records, rs, f0.jobs[i]);
    }
  }

  /** A turn of another rule. */
  lemma OthersTurn(rs0: seq<ProxyEntry>, rs: seq<ProxyEntry>, rs': seq<ProxyEntry>, j0: Job, j: Job)
    requires Underway(rs0, rs, j0) && Accounts(rs, j0, j)
    requires forall d | d in Scope(j0) :: At(rs', d) == At(rs, d)
    ensures Underway(rs0, rs', j0) && Accounts(rs', j0, j)
    ensures Ahead(rs0, rs, rs', j0) && Ahead(rs0, rs', rs, j0)
  {
    forall i | 0 <= i < |j0.plan.hosts| ensures At(rs', j0.plan.hosts[i].desc) == At(rs, j0.plan.hosts[i].desc) {
      assert j0.plan.hosts[i].desc in Scope(j0);
    }
  }

  lemma MoverTurn(f0: Fleet, f: Fleet, a: nat) returns (k: nat)
    requires Team(f0) && Onward(f0, f) && a < |f.jobs|
    ensures
      var rs0, rs, t, j0 := f0.w.nas.records, f.w.nas.records, Turn(f, a), f0.jobs[a];
      && Sound(t.w.nas) && t.w.script == []
      && GetsTo(rs, t.w.nas.records, f.jobs[a], k)
      && InPlaceUpTo(rs0, t.w.nas.records, j0, k)
      && Ahead(rs0, rs, t.w.nas.records, j0)
      && Underway(rs0, t.w.nas.records, j0)
      && Accounts(t.w.nas.records, j0, t.jobs[a])
  {
    var rs0, rs, j0 := f0.w.nas.records, f.w.nas.records, f0.jobs[a];
    assert WellNamed(j0.plan) && Underway(rs0, rs, j0) && Accounts(rs, j0, f.jobs[a]);
    k := HealthyTurn(f.w, f.jobs[a]);
    OwnTurn(rs0, rs, Turn(f, a).w.nas.records, j0, f.jobs[a], k);
  }

  /** What a turn does in a run: the mover gets as far as it can and nothing is undone. */
  lemma TurnOnward(f0: Fleet, f: Fleet, a: nat) returns (k: nat)
    requires Team(f0) && Onward(f0, f) && a < |f.jobs|
    ensures
      var rs := Turn(f, a).w.nas.records;
      && Onward(f0, Turn(f, a)) && AllAhead(f0, f.w.nas.records, rs)
      && GetsTo(f.w.nas.records, rs, f.jobs[a], k)
      && InPlaceUpTo(f0.w.nas.records, rs, f0.jobs[a], k)
      && (forall x | 0 <= x < |f.jobs| && x != a :: Ahead(f0.w.nas.records, rs, f.w.nas.records, f0.jobs[x]))
  {
    var rs0, rs := f0.w.nas.records, f.w.nas.records;
    var t := Turn(f, a);
    k := MoverTurn(f0, f, a);
    assert Accounts(rs, f0.jobs[a], f.jobs[a]);
    forall x | 0 <= x < |f.jobs| && x != a
      ensures Underway(rs0, t.w.nas.records, f0.jobs[x]) && Accounts(t.w.nas.records, f0.jobs[x], t.jobs[x])
      ensures Ahead(rs0, rs, t.w.nas.records, f0.jobs[x]) && Ahead(rs0, t.w.nas.records, rs, f0.jobs[x])
    {
      assert Underway(rs0, rs, f0.jobs[x]) && Accounts(rs, f0.jobs[x], f.jobs[x]);
      OthersTurn(rs0, rs, t.w.nas.records, f0.jobs[x], f.jobs[x]);
    }
    assert Scope(f.jobs[a]) <= Scopes(f0);
    DropWider(t.w.nas.records, rs, Scope(f.jobs[a]), Scopes(f0));
  }

  // ------------------------------------------------------- where a rule is stuck

  /** Host `i` of rule `a` has no record, and a record at its frontend, not that of another
      rule, or a host of its own, keeps it from being created. */
  ghost predicate Stuck(f0: Fleet, a: nat, i: nat) {
    && a < |f0.jobs| && i < |f0.jobs[a].plan.hosts|
    && !Clear(Drop(f0.w.nas.records, AllStale(f0.jobs[a].status, f0.jobs[a].plan)), f0.jobs[a].plan, i)
    && ((exists y | 0 <= y < i :: f0.jobs[a].plan.hosts[y].host == f0.jobs[a].plan.hosts[i].host)
        || exists r :: Unmoved(f0, a, i, r))
  }

  ghost predicate Unmoved(f0: Fleet, a: nat, i: nat, r: ProxyEntry)
    requires a < |f0.jobs| && i < |f0.jobs[a].plan.hosts|
  {
    && r in f0.w.nas.records
    && SameFrontend(r.frontend, Want(f0.jobs[a].plan, i).frontend)
    && r.description !in DescsUpTo(f0.jobs[a].plan, i)
    && (r.description in Scopes(f0) ==> r.description in Descs(f0.jobs[a].plan))
  }

  lemma UnmovedStays(f0: Fleet, rs: seq<ProxyEntry>, a: nat, i: nat, r: ProxyEntry)
    requires Team(f0) && Between(f0, rs) && a < |f0.jobs| && i < |f0.jobs[a].plan.hosts| && Unmoved(f0, a, i, r)
    requires At(rs, f0.jobs[a].plan.hosts[i].desc) == []
    ensures r in rs
  {
    var d := r.description;
    if d in Scopes(f0) {
      assert Underway(f0.w.nas.records, rs, f0.jobs[a]);
      AtMembers(rs, d);
      AtMembers(f0.w.nas.records, d);
      assert r in At(f0.w.nas.records, d);
    } else {
      DropMembers(rs, Scopes(f0));
      DropMembers(f0.w.nas.records, Scopes(f0));
      assert r in Drop(f0.w.nas.records, Scopes(f0));
    }
  }

  lemma StillStuck(f0: Fleet, rs: seq<ProxyEntry>, a: nat, j: Job, i: nat)
    requires Team(f0) && Stuck(f0, a, i) && Between(f0, rs) && Accounts(rs, f0.jobs[a], j)
    requires At(rs, f0.jobs[a].plan.hosts[i].desc) == []
    ensures !Clear(Drop(rs, AllStale(j.status, j.plan)), j.plan, i)
  {
    var plan, stale := j.plan, AllStale(j.status, j.plan);
    var d := plan.hosts[i].desc;
    ScopeIsTerritory(j);
    AtDrop(rs, stale, d);
    assert Blocked(Drop(rs, stale), plan, i) by {
      if r :| Unmoved(f0, a, i, r) {
        UnmovedStays(f0, rs, a, i, r);
        DropMembers(rs, stale);
        assert Scope(j) <= Scope(f0.jobs[a]) <= Scopes(f0);
        assert r in Drop(rs, stale);
      }
    }
  }

  lemma StuckTurn(f0: Fleet, f: Fleet, a: nat, i: nat, mover: nat)
    requires Team(f0) && Onward(f0, f) && Stuck(f0, a, i) && mover < |f0.jobs|
    requires At(f.w.nas.records, f0.jobs[a].plan.hosts[i].desc) == []
    ensures At(Turn(f, mover).w.nas.records, f0.jobs[a].plan.hosts[i].desc) == []
  {
    var rs := f.w.nas.records;
    var k := TurnOnward(f0, f, mover);
    assert Accounts(rs, f0.jobs[mover], f.jobs[mover]);
    if mover == a {
      StillStuck(f0, rs, a, f.jobs[a], i);
      StopsShort(rs, Turn(f, a).w.nas.records, f.jobs[a], i, k);
    } else {
      assert f0.jobs[a].plan.hosts[i].desc in Scope(f0.jobs[a]);
      assert Scope(f0.jobs[a]) !! Scope(f0.jobs[mover]);
    }
  }

  /** Where the rules stop for good. */
  ghost predicate Caps(f0: Fleet, far: seq<nat>) {
    && |far| == |f0.jobs|
    && forall i | 0 <= i < |far| ::
         far[i] <= |f0.jobs[i].plan.hosts| && (far[i] < |f0.jobs[i].plan.hosts| ==> Stuck(f0, i, far[i]))
  }

  ghost predicate Capped(f0: Fleet, rs: seq<ProxyEntry>, far: seq<nat>) {
    && |far| == |f0.jobs|
    && forall i | 0 <= i < |far| && far[i] < |f0.jobs[i].plan.hosts| ::
         At(rs, f0.jobs[i].plan.hosts[far[i]].desc) == []
  }

  lemma CappedTurn(f0: Fleet, f: Fleet, far: seq<nat>, mover: nat)
    requires Team(f0) && Caps(f0, far) && Onward(f0, f) && Capped(f0, f.w.nas.records, far) && mover < |f0.jobs|
    ensures Capped(f0, Turn(f, mover).w.nas.records, far)
  {
    forall i | 0 <= i < |far| && far[i] < |f0.jobs[i].plan.hosts|
      ensures At(Turn(f, mover).w.nas.records, f0.jobs[i].plan.hosts[far[i]].desc) == []
    {
      StuckTurn(f0, f, i, far[i], mover);
    }
  }

  lemma CapsAtStart(f0: Fleet, far: seq<nat>)
    requires Caps(f0, far)
    ensures Capped(f0, f0.w.nas.records, far)
  {
    forall i | 0 <= i < |far| && far[i] < |f0.jobs[i].plan.hosts|
      ensures At(f0.w.nas.records, f0.jobs[i].plan.hosts[far[i]].desc) == []
    {
      StuckIsMissing(f0, i, far[i]);
    }
  }

  lemma StuckIsMissing(f0: Fleet, a: nat, i: nat)
    requires Stuck(f0, a, i)
    ensures At(f0.w.nas.records, f0.jobs[a].plan.hosts[i].desc) == []
  {
    ScopeIsTerritory(f0.jobs[a]);
    AtDrop(f0.w.nas.records, AllStale(f0.jobs[a].status, f0.jobs[a].plan), f0.jobs[a].plan.hosts[i].desc);
  }

  // ----------------------------------------------- clear stays clear, uncontested

  /** Rules that do not contest a frontend before they are stuck. */
  ghost predicate Charted(f0: Fleet, far: seq<nat>) {
    Team(f0) && Caps(f0, far) && Uncontested(f0, far)
  }

  /** A list that turns can have made of the first one, with the rules stuck where they are. */
  ghost predicate Within(f0: Fleet, far: seq<nat>, rs: seq<ProxyEntry>) {
    Between(f0, rs) && Capped(f0, rs, far)
  }

  /** A record of another rule: it was there before, or it is where its rule wants it. */
  lemma OthersRecord(rs0: seq<ProxyEntry>, rs: seq<ProxyEntry>, rs': seq<ProxyEntry>, j: Job, m: nat, r: ProxyEntry)
    requires Underway(rs0, rs, j) && Underway(rs0, rs', j) && Ahead(rs0, rs, rs', j) && m <= |j.plan.hosts|
    requires m < |j.plan.hosts| ==> At(rs, j.plan.hosts[m].desc) == [] && At(rs', j.plan.hosts[m].desc) == []
    requires r in rs' && r.description in Scope(j)
    ensures r in rs || exists k | 0 <= k < m :: SameFrontend(r.frontend, Want(j.plan, k).frontend)
  {
    var d := r.description;
    AtMembers(rs', d);
    AtMembers(rs, d);
    assert r in At(rs', d);
    if d in Descs(j.plan) && d !in DescsUpTo(j.plan, m) {
      assert At(rs', d) == At(rs0, d) == At(rs, d);
    } else if InPlace(rs0, rs', j.plan, d) {
      var k := RecordInPlace(rs0, rs', j.plan, m, r);
    }
  }

  lemma RecordInPlace(rs0: seq<ProxyEntry>, rs: seq<ProxyEntry>, plan: Plan, m: nat, r: ProxyEntry) returns (k: nat)
    requires m <= |plan.hosts| && r in rs && InPlace(rs0, rs, plan, r.description)
    requires r.description in Descs(plan) ==> r.description in DescsUpTo(plan, m)
    ensures k < m && SameFrontend(r.frontend, Want(plan, k).frontend)
  {
    AtMembers(rs, r.description);
    assert r in At(rs, r.description);
    k :| 0 <= k < m && plan.hosts[k].desc == r.description;
    assert Shows(At(rs0, r.description), At(rs, r.description), Want(plan, k));
    ShowsFrontend(At(rs0, r.description), At(rs, r.description), Want(plan, k), r);
  }

  lemma ShowsFrontend(at0: seq<ProxyEntry>, at: seq<ProxyEntry>, e: ProxyEntry, r: ProxyEntry)
    requires Shows(at0, at, e) && r in at
    ensures SameFrontend(r.frontend, e.frontend)
  {
    assert r == at[0] && Face(r).frontend == r.frontend;
  }

  /** A record of the rule itself, of a later host: it was there before. */
  lemma OwnRecord(rs0: seq<ProxyEntry>, rs: seq<ProxyEntry>, rs': seq<ProxyEntry>, j0: Job, j': Job, i: nat,
      r: ProxyEntry)
    requires Underway(rs0, rs, j0) && Underway(rs0, rs', j0) && Accounts(rs', j0, j')
    requires i < |j0.plan.hosts| && At(rs, j0.plan.hosts[i].desc) == [] && At(rs', j0.plan.hosts[i].desc) == []
    requires r in Drop(rs', AllStale(j'.status, j'.plan)) && r.description in Scope(j0)
    requires r.description !in DescsUpTo(j0.plan, i)
    ensures r in rs && r.description in Descs(j0.plan)
  {
    var d := r.description;
    DropMembers(rs', AllStale(j'.status, j'.plan));
    ScopeIsTerritory(j');
    AtMembers(rs', d);
    AtMembers(rs, d);
    assert r in At(rs', d);
  }

  lemma OthersRecordIsOld(f0: Fleet, far: seq<nat>, rs: seq<ProxyEntry>, rs': seq<ProxyEntry>, a: nat, b: nat, i: nat,
      r: ProxyEntry)
    requires Charted(f0, far) && a < |f0.jobs| && b < |f0.jobs| && a != b && i < far[a]
    requires Within(f0, far, rs) && Within(f0, far, rs') && AllAhead(f0, rs, rs')
    requires At(f0.w.nas.records, f0.jobs[a].plan.hosts[i].desc) == []
    requires r in rs' && r.description in Scope(f0.jobs[b])
    requires SameFrontend(r.frontend, Want(f0.jobs[a].plan, i).frontend)
    ensures r in rs
  {
    OthersRecord(f0.w.nas.records, rs, rs', f0.jobs[b], far[b], r);
    assert InPlaceAgainst(f0.w.nas.records, f0.jobs[a].plan, f0.jobs[b].plan, far[a], far[b]);
  }

  lemma ForeignRecord(f0: Fleet, rs: seq<ProxyEntry>, rs': seq<ProxyEntry>, r: ProxyEntry)
    requires Between(f0, rs) && Between(f0, rs') && r in rs' && r.description !in Scopes(f0)
    ensures r in rs
  {
    DropMembers(rs, Scopes(f0));
    DropMembers(rs', Scopes(f0));
    assert r in Drop(rs', Scopes(f0));
  }

  lemma NoNewBlocker(f0: Fleet, far: seq<nat>, rs: seq<ProxyEntry>, rs': seq<ProxyEntry>, a: nat, j: Job, j': Job,
      i: nat, r: ProxyEntry)
    requires Charted(f0, far) && a < |f0.jobs| && i < far[a]
    requires Within(f0, far, rs) && Within(f0, far, rs') && AllAhead(f0, rs, rs')
    requires j.plan == f0.jobs[a].plan && Scope(j) <= Scope(f0.jobs[a]) && Accounts(rs', f0.jobs[a], j')
    requires
      var d := f0.jobs[a].plan.hosts[i].desc;
      At(f0.w.nas.records, d) == [] && At(rs, d) == [] && At(rs', d) == []
    requires r in Drop(rs', AllStale(j'.status, j'.plan)) && r.description !in DescsUpTo(j.plan, i)
    requires SameFrontend(r.frontend, Want(j.plan, i).frontend)
    ensures r in Drop(rs, AllStale(j.status, j.plan))
  {
    ScopeIsTerritory(j);
    DropMembers(rs', AllStale(j'.status, j'.plan));
    DropMembers(rs, AllStale(j.status, j.plan));
    if r.description !in Scopes(f0) {
      ForeignRecord(f0, rs, rs', r);
    } else {
      var b :| 0 <= b < |f0.jobs| && r.description in Scope(f0.jobs[b]);
      if b == a {
        OwnRecord(f0.w.nas.records, rs, rs', f0.jobs[a], j', i, r);
      } else {
        OthersRecordIsOld(f0, far, rs, rs', a, b, i, r);
      }
    }
  }

  lemma StillMissing(rs0: seq<ProxyEntry>, rs: seq<ProxyEntry>, rs': seq<ProxyEntry>, j0: Job, i: nat)
    requires Underway(rs0, rs, j0) && Underway(rs0, rs', j0) && Ahead(rs0, rs, rs', j0) && i < |j0.plan.hosts|
    requires At(rs', j0.plan.hosts[i].desc) == []
    ensures At(rs0, j0.plan.hosts[i].desc) == [] && At(rs, j0.plan.hosts[i].desc) == []
  {
    var d := j0.plan.hosts[i].desc;
    assert d in Scope(j0);
    assert !Shows(At(rs0, d), At(rs', d), Want(j0.plan, i));
  }

  /** What is clear stays clear in every list that is further on. */
  lemma StillClear(f0: Fleet, far: seq<nat>, rs: seq<ProxyEntry>, rs': seq<ProxyEntry>, a: nat, j: Job, j': Job, i: nat)
    requires Charted(f0, far) && a < |f0.jobs| && i < far[a]
    requires Within(f0, far, rs) && Within(f0, far, rs') && AllAhead(f0, rs, rs')
    requires j.plan == f0.jobs[a].plan && Scope(j) <= Scope(f0.jobs[a]) && Accounts(rs', f0.jobs[a], j')
    requires Clear(Drop(rs, AllStale(j.status, j.plan)), j.plan, i)
    ensures Clear(Drop(rs', AllStale(j'.status, j'.plan)), j.plan, i)
  {
    var plan, swept, swept' := j.plan, Drop(rs, AllStale(j.status, j.plan)), Drop(rs', AllStale(j'.status, j'.plan));
    var d := plan.hosts[i].desc;
    ScopeIsTerritory(j);
    ScopeIsTerritory(j');
    AtDrop(rs, AllStale(j.status, j.plan), d);
    AtDrop(rs', AllStale(j'.status, j'.plan), d);
    if At(rs', d) == [] && d !in DescsUpTo(plan, i) {
      StillMissing(f0.w.nas.records, rs, rs', f0.jobs[a], i);
      forall r | r in swept' && SameFrontend(r.frontend, Want(plan, i).frontend)
        ensures r.description in DescsUpTo(plan, i)
      {
        if r.description !in DescsUpTo(plan, i) {
          NoNewBlocker(f0, far, rs, rs', a, j, j', i, r);
        }
      }
    }
  }

  /** So a rule gets at least as far. */
  lemma GetsAsFar(f0: Fleet, far: seq<nat>, rs: seq<ProxyEntry>, rs': seq<ProxyEntry>, after: seq<ProxyEntry>, a: nat,
      j: Job, j': Job, k: nat, k': nat)
    requires Charted(f0, far) && a < |f0.jobs| && k <= far[a]
    requires Within(f0, far, rs) && Within(f0, far, rs') && AllAhead(f0, rs, rs')
    requires j.plan == f0.jobs[a].plan && Scope(j) <= Scope(f0.jobs[a]) && Accounts(rs', f0.jobs[a], j')
    requires Unobstructed(Drop(rs, AllStale(j.status, j.plan)), j.plan, k) && GetsTo(rs', after, j', k')
    ensures k <= k'
  {
    if k' < k {
      StillClear(f0, far, rs, rs', a, j, j', k');
    }
  }

  // ------------------------------------------------------- how far the rules get

  /** Rule `i` is unobstructed up to host `open[i]`. */
  ghost predicate OpenTo(f0: Fleet, rs: seq<ProxyEntry>, open: seq<nat>) {
    && |open| == |f0.jobs|
    && forall i | 0 <= i < |open| ::
         && open[i] <= |f0.jobs[i].plan.hosts|
         && Unobstructed(Drop(rs, AllStale(f0.jobs[i].status, f0.jobs[i].plan)), f0.jobs[i].plan, open[i])
  }

  /** The rules of `order` are done that far. */
  ghost predicate AllServed(f0: Fleet, rs: seq<ProxyEntry>, order: seq<nat>, far: seq<nat>)
    requires Indices(f0, order) && |far| == |f0.jobs|
  {
    forall k | 0 <= k < |order| :: ServedTo(f0, rs, order[k], far)
  }

  ghost predicate ServedTo(f0: Fleet, rs: seq<ProxyEntry>, i: nat, far: seq<nat>)
    requires i < |f0.jobs| == |far|
  {
    far[i] <= |f0.jobs[i].plan.hosts| && InPlaceUpTo(f0.w.nas.records, rs, f0.jobs[i], far[i])
  }

  lemma ServedStays(f0: Fleet, rs: seq<ProxyEntry>, rs': seq<ProxyEntry>, order: seq<nat>, far: seq<nat>)
    requires Indices(f0, order) && |far| == |f0.jobs|
    requires AllServed(f0, rs, order, far) && AllAhead(f0, rs, rs')
    ensures AllServed(f0, rs', order, far)
  {
    forall k | 0 <= k < |order| ensures ServedTo(f0, rs', order[k], far) {
      assert ServedTo(f0, rs, order[k], far);
      assert Ahead(f0.w.nas.records, rs, rs', f0.jobs[order[k]]);
    }
  }

  lemma InPlaceFurther(rs0: seq<ProxyEntry>, rs: seq<ProxyEntry>, j: Job, k: nat, k': nat)
    requires k <= k' <= |j.plan.hosts| && InPlaceUpTo(rs0, rs, j, k')
    ensures InPlaceUpTo(rs0, rs, j, k)
  {
  }

  /** A rule that a list behind shows unobstructed so far gets so far. */
  lemma TurnServes(f0: Fleet, far: seq<nat>, rs: seq<ProxyEntry>, f: Fleet, a: nat, open: seq<nat>)
    requires Charted(f0, far) && Onward(f0, f) && a < |f0.jobs| && OpenTo(f0, rs, open) && open[a] <= far[a]
    requires Within(f0, far, rs) && Capped(f0, f.w.nas.records, far) && AllAhead(f0, rs, f.w.nas.records)
    ensures Onward(f0, Turn(f, a)) && AllAhead(f0, f.w.nas.records, Turn(f, a).w.nas.records)
    ensures ServedTo(f0, Turn(f, a).w.nas.records, a, open)
  {
    var j0, j := f0.jobs[a], f.jobs[a];
    assert Accounts(f.w.nas.records, j0, j);
    var k := TurnOnward(f0, f, a);
    GetsAsFar(f0, far, rs, f.w.nas.records, Turn(f, a).w.nas.records, a, j0, j, open[a], k);
    InPlaceFurther(f0.w.nas.records, Turn(f, a).w.nas.records, j0, open[a], k);
  }

  lemma AheadTrans(f0: Fleet, a: seq<ProxyEntry>, b: seq<ProxyEntry>, c: seq<ProxyEntry>)
    requires AllAhead(f0, a, b) && AllAhead(f0, b, c)
    ensures AllAhead(f0, a, c)
  {
    forall i | 0 <= i < |f0.jobs| ensures Ahead(f0.w.nas.records, a, c, f0.jobs[i]) {
      assert Ahead(f0.w.nas.records, a, b, f0.jobs[i]) && Ahead(f0.w.nas.records, b, c, f0.jobs[i]);
    }
  }

  /** A run that is further on than `rs` and has served `order`. */
  ghost predicate Serves(f0: Fleet, far: seq<nat>, rs: seq<ProxyEntry>, f: Fleet, order: seq<nat>, open: seq<nat>) {
    && Onward(f0, f) && Capped(f0, f.w.nas.records, far) && AllAhead(f0, rs, f.w.nas.records)
    && Indices(f0, order) && |open| == |f0.jobs| && AllServed(f0, f.w.nas.records, order, open)
  }

  /** The rules are unobstructed in `rs` at least as far as `open`. */
  ghost predicate Opens(f0: Fleet, far: seq<nat>, rs: seq<ProxyEntry>, open: seq<nat>) {
    && Charted(f0, far) && Within(f0, far, rs) && OpenTo(f0, rs, open)
    && forall i | 0 <= i < |open| :: open[i] <= far[i]
  }

  lemma ServesStep(f0: Fleet, far: seq<nat>, rs: seq<ProxyEntry>, f: Fleet, order: seq<nat>, a: nat, open: seq<nat>)
    requires Opens(f0, far, rs, open) && a < |f0.jobs| && Serves(f0, far, rs, f, order, open)
    ensures Serves(f0, far, rs, Turn(f, a), order + [a], open)
  {
    TurnServes(f0, far, rs, f, a, open);
    CappedTurn(f0, f, far, a);
    ServedStays(f0, f.w.nas.records, Turn(f, a).w.nas.records, order, open);
    AheadTrans(f0, rs, f.w.nas.records, Turn(f, a).w.nas.records);
  }

  /** Every rule that has had a turn is done as far as a list behind shows it open. */
  lemma {:induction false} PlayServes(f0: Fleet, far: seq<nat>, rs: seq<ProxyEntry>, f: Fleet, order: seq<nat>,
      open: seq<nat>)
    requires Opens(f0, far, rs, open) && Indices(f0, order)
    requires Onward(f0, f) && Capped(f0, f.w.nas.records, far) && AllAhead(f0, rs, f.w.nas.records)
    ensures Indices(f, order) && Serves(f0, far, rs, Play(f, order), order, open)
  {
    if order != [] {
      var n := |order| - 1;
      PlayServes(f0, far, rs, f, order[..n], open);
      ServesLast(f0, far, rs, Play(f, order[..n]), order, n, open);
    }
  }

  lemma ServesLast(f0: Fleet, far: seq<nat>, rs: seq<ProxyEntry>, f: Fleet, order: seq<nat>, n: nat, open: seq<nat>)
    requires Opens(f0, far, rs, open) && Indices(f0, order) && |order| == n + 1
    requires Serves(f0, far, rs, f, order[..n], open)
    ensures Serves(f0, far, rs, Turn(f, order[n]), order, open)
  {
    ServesStep(f0, far, rs, f, order[..n], order[n], open);
    assert order == order[..n] + [order[n]];
  }

  lemma StartServes(f0: Fleet, far: seq<nat>, order: seq<nat>, open: seq<nat>)
    requires Charted(f0, far) && Indices(f0, order) && OpenTo(f0, f0.w.nas.records, open)
    requires forall i | 0 <= i < |open| :: open[i] <= far[i]
    ensures Serves(f0, far, f0.w.nas.records, Play(f0, order), order, open)
  {
    CapsAtStart(f0, far);
    StartOnward(f0);
    StartIsBehind(f0, f0.w.nas.records);
    PlayServes(f0, far, f0.w.nas.records, f0, order, open);
  }

  lemma CoveredIsServed(f0: Fleet, rs: seq<ProxyEntry>, order: seq<nat>, i: nat, far: seq<nat>)
    requires Indices(f0, order) && |far| == |f0.jobs| && AllServed(f0, rs, order, far)
    requires i < |f0.jobs| && i in order
    ensures ServedTo(f0, rs, i, far)
  {
    var k :| 0 <= k < |order| && order[k] == i;
    assert ServedTo(f0, rs, order[k], far);
  }

  // -------------------------------------------------------------- any two orders

  function Full(f: Fleet): (far: seq<nat>)
    ensures |far| == |f.jobs| && forall i | 0 <= i < |far| :: far[i] == |f.jobs[i].plan.hosts|
  {
    seq(|f.jobs|, i requires 0 <= i < |f.jobs| => |f.jobs[i].plan.hosts|)
  }

  /** Two record lists look alike at a description: as many records, the same but for
      their identifiers. */
  ghost predicate Alike(rs: seq<ProxyEntry>, rs': seq<ProxyEntry>, d: string) {
    var a, b := At(rs, d), At(rs', d);
    |a| == |b| && forall i | 0 <= i < |a| :: Face(a[i]) == Face(b[i])
  }

  lemma InPlaceAlike(rs0: seq<ProxyEntry>, a: seq<ProxyEntry>, b: seq<ProxyEntry>, plan: Plan, d: string)
    requires InPlace(rs0, a, plan, d) && InPlace(rs0, b, plan, d)
    ensures Alike(a, b, d)
  {
    if d in Descs(plan) {
      var i :| 0 <= i < |plan.hosts| && plan.hosts[i].desc == d;
    }
  }

  lemma OutsideAlike(f0: Fleet, a: seq<ProxyEntry>, b: seq<ProxyEntry>, d: string)
    requires Between(f0, a) && Between(f0, b) && d !in Scopes(f0)
    ensures Alike(a, b, d)
  {
    AtFrame(a, f0.w.nas.records, Scopes(f0), d);
    AtFrame(b, f0.w.nas.records, Scopes(f0), d);
  }

  /** A rule that is done up to the host where it is stuck has its corner look the same. */
  lemma EndsAlike(f0: Fleet, a: seq<ProxyEntry>, b: seq<ProxyEntry>, i: nat, far: seq<nat>, d: string)
    requires i < |f0.jobs| == |far| && d in Scope(f0.jobs[i])
    requires Within(f0, far, a) && Within(f0, far, b) && ServedTo(f0, a, i, far) && ServedTo(f0, b, i, far)
    ensures Alike(a, b, d)
  {
    var rs0, j := f0.w.nas.records, f0.jobs[i];
    assert Underway(rs0, a, j) && Underway(rs0, b, j);
    if d in Descs(j.plan) && d !in DescsUpTo(j.plan, far[i]) {
      assert At(a, d) == At(rs0, d) == At(b, d);
    } else {
      InPlaceAlike(rs0, a, b, j.plan, d);
    }
  }

  /** From the start each rule is unobstructed up to the host where it is stuck for good. */
  ghost predicate Steady(f0: Fleet, far: seq<nat>) {
    Team(f0) && Caps(f0, far) && OpenTo(f0, f0.w.nas.records, far)
  }

  lemma SteadyServes(f0: Fleet, far: seq<nat>, order: seq<nat>)
    requires Steady(f0, far) && Uncontested(f0, far) && Indices(f0, order)
    ensures Within(f0, far, Play(f0, order).w.nas.records)
    ensures forall i | 0 <= i < |f0.jobs| && i in order :: ServedTo(f0, Play(f0, order).w.nas.records, i, far)
  {
    StartServes(f0, far, order, far);
    forall i | 0 <= i < |f0.jobs| && i in order ensures ServedTo(f0, Play(f0, order).w.nas.records, i, far) {
      CoveredIsServed(f0, Play(f0, order).w.nas.records, order, i, far);
    }
  }

  /** Isolation: any two orders that give every rule a turn, however interleaved and
      repeated, end in the same DSM up to identifiers. */
  lemma OrderDoesNotMatter(f0: Fleet, far: seq<nat>, one: seq<nat>, two: seq<nat>, d: string)
    requires Steady(f0, far) && Uncontested(f0, far) && Indices(f0, one) && Indices(f0, two)
    requires forall i | 0 <= i < |f0.jobs| :: i in one && i in two
    ensures Alike(Play(f0, one).w.nas.records, Play(f0, two).w.nas.records, d)
  {
    var a, b := Play(f0, one).w.nas.records, Play(f0, two).w.nas.records;
    SteadyServes(f0, far, one);
    SteadyServes(f0, far, two);
    if d in Scopes(f0) {
      var i :| 0 <= i < |f0.jobs| && d in Scope(f0.jobs[i]);
      EndsAlike(f0, a, b, i, far, d);
    } else {
      OutsideAlike(f0, a, b, d);
    }
  }

  /** A rule sees the same corner of DSM whether it runs alone or among others. */
  lemma AsIfAlone(f0: Fleet, far: seq<nat>, order: seq<nat>, i: nat, d: string)
    requires Steady(f0, far) && Uncontested(f0, far) && Indices(f0, order) && i in order && d in Scope(f0.jobs[i])
    ensures Alike(Play(f0, order).w.nas.records, Turn(f0, i).w.nas.records, d)
  {
    assert [i][..0] == [] && Play(f0, [i]) == Turn(Play(f0, []), i);
    assert [i][0] == i;
    SteadyServes(f0, far, order);
    SteadyServes(f0, far, [i]);
    EndsAlike(f0, Play(f0, order).w.nas.records, Turn(f0, i).w.nas.records, i, far, d);
  }

  // ------------------------------------------------------ disjoint descriptions

  /** The text before the first separator. */
  function Before(s: string, sep: char): string {
    if s == "" || s[0] == sep then "" else [s[0]] + Before(s[1..], sep)
  }

  lemma {:induction false} BeforeAll(a: string, sep: char)
    requires sep !in a
    ensures Before(a, sep) == a
  {
    if a != "" {
      BeforeAll(a[1..], sep);
    }
  }

  lemma {:induction false} BeforeSep(a: string, x: string, sep: char)
    requires sep !in a
    ensures Before(a + [sep] + x, sep) == a
  {
    if a == "" {
      assert (a + [sep] + x)[0] == sep;
    } else {
      BeforeSep(a[1..], x, sep);
      assert (a + [sep] + x)[1..] == a[1..] + [sep] + x;
    }
  }

  /** What stands before and after the first separator is determined. */
  lemma SplitAtFirst(a: string, x: string, b: string, y: string, sep: char)
    requires sep !in a && sep !in b && a + [sep] + x == b + [sep] + y
    ensures a == b && x == y
  {
    BeforeSep(a, x, sep);
    BeforeSep(b, y, sep);
    assert (a + [sep] + x)[|a| + 1..] == x;
    assert (b + [sep] + y)[|a| + 1..] == y;
  }

  /** Default descriptions of different rules never meet: a namespace and a name hold no
      slash. */
  lemma DefaultDescriptionsDisjoint(a: Rule, b: Rule)
    requires a.spec.description == "" && b.spec.description == ""
    requires '/' !in a.namespace && '/' !in a.name && '/' !in b.namespace && '/' !in b.name
    requires a.namespace != b.namespace || a.name != b.name
    ensures WantedDescs(a) !! WantedDescs(b)
  {
    forall d | d in WantedDescs(a) ensures d !in WantedDescs(b) {
      if d in WantedDescs(b) {
        SameRule(a, b, d);
      }
    }
  }

  lemma SameRule(a: Rule, b: Rule, d: string)
    requires a.spec.description == "" && b.spec.description == ""
    requires '/' !in a.namespace && '/' !in a.name && '/' !in b.namespace && '/' !in b.name
    requires d in WantedDescs(a) && d in WantedDescs(b)
    ensures a.namespace == b.namespace && a.name == b.name
  {
    var x := TailOf(a, d);
    var y := TailOf(b, d);
    SplitAtFirst(a.namespace, x, b.namespace, y, '/');
    NameOf(a.name, x);
    NameOf(b.name, y);
  }

  /** A default description is the namespace, a slash, and the name with perhaps a host. */
  lemma TailOf(r: Rule, d: string) returns (tail: string)
    requires r.spec.description == "" && d in WantedDescs(r)
    ensures d == r.namespace + ['/'] + tail
    ensures tail == r.name || exists h: string :: tail == r.name + ['/'] + h
  {
    if d == DescriptionFor(r) {
      tail := r.name;
    } else {
      var h :| h in r.spec.additionalSourceHosts && d == DescriptionFor(r) + "/" + h;
      tail := r.name + ['/'] + h;
      assert d == r.namespace + ['/'] + tail;
    }
  }

  lemma NameOf(a: string, x: string)
    requires '/' !in a && (x == a || exists h: string :: x == a + ['/'] + h)
    ensures Before(x, '/') == a
  {
    BeforeAll(a, '/');
    if h: string :| x == a + ['/'] + h {
      BeforeSep(a, h, '/');
    }
  }
}
