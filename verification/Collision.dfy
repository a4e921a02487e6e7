/** No state DSM passes through during a pass gives two records of one rule the same
    frontend. */
module Collision {
  import opened Util
  import opened Dsm
  import opened Client
  import opened Proxy
  import opened Rules
  import opened Sync
  import opened Convergence

  /** No two records described in `mine` share a frontend host. */
  ghost predicate HostsDistinct(rs: seq<ProxyEntry>, mine: set<string>) {
    forall a, b | a in rs && b in rs && a.description in mine && b.description in mine ::
      a.frontend.fqdn == b.frontend.fqdn ==> a.description == b.description
  }

  /** No two records described in `mine` share a frontend host and port. */
  ghost predicate CollisionFree(rs: seq<ProxyEntry>, mine: set<string>) {
    forall a, b | a in rs && b in rs && a.description in mine && b.description in mine ::
      SameFrontend(a.frontend, b.frontend) ==> a.description == b.description
  }

  /** The rule's own records carry the base description or the base and their host. */
  ghost predicate Named(rs: seq<ProxyEntry>, mine: set<string>, base: string) {
    forall r | r in rs && r.description in mine ::
      r.description == base || r.description == base + "/" + r.frontend.fqdn
  }

  /** The plan follows the naming scheme and lists no host twice. */
  ghost predicate Scheme(plan: Plan, base: string, primary: string, additional: seq<string>) {
    && plan.hosts == HostsOf(base, primary, additional)
    && primary !in additional
  }

  ghost predicate Exact(rs: seq<ProxyEntry>, plan: Plan, i: nat)
    requires i < |plan.hosts|
  {
    forall r | r in rs && r.description == plan.hosts[i].desc :: r.frontend.fqdn == plan.hosts[i].host
  }

  ghost predicate ExactFrom(rs: seq<ProxyEntry>, plan: Plan, lo: nat) {
    forall i | lo <= i < |plan.hosts| :: Exact(rs, plan, i)
  }

  /** Every record of the rule is a planned one. */
  ghost predicate OnlyPlanned(rs: seq<ProxyEntry>, mine: set<string>, plan: Plan) {
    forall r | r in rs && r.description in mine :: r.description in Descs(plan)
  }

  lemma SchemeWellNamed(plan: Plan, base: string, primary: string, additional: seq<string>)
    requires Scheme(plan, base, primary, additional)
    ensures WellNamed(plan)
    ensures forall i, j | 0 <= i < |plan.hosts| && 0 <= j < |plan.hosts| ::
      plan.hosts[i].host == plan.hosts[j].host ==> plan.hosts[i].desc == plan.hosts[j].desc
  {
    forall i, j | 0 <= i < |plan.hosts| && 0 <= j < |plan.hosts| && plan.hosts[i].desc == plan.hosts[j].desc
      ensures plan.hosts[i] == plan.hosts[j]
    {
      HostsWellNamed(base, primary, additional, i, j);
    }
    forall i, j | 0 <= i < |plan.hosts| && 0 <= j < |plan.hosts| && plan.hosts[i].host == plan.hosts[j].host
      ensures plan.hosts[i].desc == plan.hosts[j].desc
    {
      if i > 0 { assert additional[i - 1] in additional; }
      if j > 0 { assert additional[j - 1] in additional; }
    }
  }

  /** When every record sits at its planned host, hosts are distinct. */
  lemma ExactIsDistinct(rs: seq<ProxyEntry>, mine: set<string>, plan: Plan,
      base: string, primary: string, additional: seq<string>)
    requires Scheme(plan, base, primary, additional)
    requires ExactFrom(rs, plan, 0) && OnlyPlanned(rs, mine, plan)
    ensures HostsDistinct(rs, mine)
  {
    SchemeWellNamed(plan, base, primary, additional);
    forall a, b | a in rs && b in rs && a.description in mine && b.description in mine
      && a.frontend.fqdn == b.frontend.fqdn
      ensures a.description == b.description
    {
      var i :| 0 <= i < |plan.hosts| && plan.hosts[i].desc == a.description;
      var j :| 0 <= j < |plan.hosts| && plan.hosts[j].desc == b.description;
      assert Exact(rs, plan, i) && Exact(rs, plan, j);
    }
  }

  /** Additional hosts are exact from the start: their description names their host. */
  lemma NamedIsExact(rs: seq<ProxyEntry>, mine: set<string>, plan: Plan,
      base: string, primary: string, additional: seq<string>)
    requires Scheme(plan, base, primary, additional) && Named(rs, mine, base) && Descs(plan) <= mine
    ensures ExactFrom(rs, plan, 1)
  {
    forall i | 1 <= i < |plan.hosts| ensures Exact(rs, plan, i) {
      forall r | r in rs && r.description == plan.hosts[i].desc ensures r.frontend.fqdn == plan.hosts[i].host {
        assert |r.description| > |base|;
        AppendInjective(base, r.frontend.fqdn, additional[i - 1]);
      }
    }
  }

  lemma DistinctDrop(rs: seq<ProxyEntry>, gone: set<string>, mine: set<string>)
    requires HostsDistinct(rs, mine)
    ensures HostsDistinct(Drop(rs, gone), mine)
  {
    DropMembers(rs, gone);
  }

  // ----------------------------------------------------------- the upserts

  ghost predicate Apart(rs: seq<ProxyEntry>, mine: set<string>, plan: Plan) {
    && OnlyPlanned(rs, mine, plan)
    && ExactFrom(rs, plan, 1)
    && HostsDistinct(rs, mine)
  }

  ghost predicate ApartBy(w: World, plan: Plan, mine: set<string>, s: Synced) {
    && Apart(s.w.nas.records, mine, plan)
    && LogGrows(w.log, s.w.log, (x: Exchange) => HostsDistinct(x.after, mine))
  }

  /** Writing host `i` at its own host keeps the other hosts exact. */
  lemma WriteKeepsExact(rs: seq<ProxyEntry>, rs': seq<ProxyEntry>, plan: Plan, i: nat, j: nat, stored: ProxyEntry)
    requires i < |plan.hosts| && j < |plan.hosts| && WellNamed(plan)
    requires Drop(rs', {plan.hosts[i].desc}) == Drop(rs, {plan.hosts[i].desc})
    requires At(rs', plan.hosts[i].desc) == [stored] && stored.frontend.fqdn == plan.hosts[i].host
    requires i == j || Exact(rs, plan, j)
    ensures Exact(rs', plan, j)
  {
    var d := plan.hosts[j].desc;
    AtMembers(rs', d);
    AtMembers(rs, d);
    forall r | r in rs' && r.description == d ensures r.frontend.fqdn == plan.hosts[j].host {
      assert r in At(rs', d);
      if d == plan.hosts[i].desc {
        assert r in [stored];
        assert plan.hosts[i] == plan.hosts[j];
      } else {
        AtFrame(rs', rs, {plan.hosts[i].desc}, d);
      }
    }
  }

  lemma WriteKeepsPlanned(rs: seq<ProxyEntry>, rs': seq<ProxyEntry>, mine: set<string>, plan: Plan, i: nat)
    requires i < |plan.hosts| && OnlyPlanned(rs, mine, plan)
    requires Drop(rs', {plan.hosts[i].desc}) == Drop(rs, {plan.hosts[i].desc})
    ensures OnlyPlanned(rs', mine, plan)
  {
    var ds := {plan.hosts[i].desc};
    DropMembers(rs, ds);
    DropMembers(rs', ds);
    forall r | r in rs' && r.description in mine ensures r.description in Descs(plan) {
      if r.description !in ds { assert r in Drop(rs', ds); }
    }
  }

  /** The primary first, or the primary already in place: one more host keeps the
      rule's records apart. */
  lemma HostKeepsApart(nas: Nas, nas': Nas, mine: set<string>, plan: Plan, i: nat,
      base: string, primary: string, additional: seq<string>)
    requires i < |plan.hosts| && Scheme(plan, base, primary, additional)
    requires Apart(nas.records, mine, plan) && (i > 0 ==> Exact(nas.records, plan, 0))
    requires Drop(nas'.records, {plan.hosts[i].desc}) == Drop(nas.records, {plan.hosts[i].desc})
    requires nas'.records == nas.records || At(nas'.records, plan.hosts[i].desc) == [Stored(nas, Want(plan, i))]
    ensures Apart(nas'.records, mine, plan)
  {
    if nas'.records != nas.records {
      SchemeWellNamed(plan, base, primary, additional);
      WriteKeepsPlanned(nas.records, nas'.records, mine, plan, i);
      forall j | 0 <= j < |plan.hosts| ensures Exact(nas'.records, plan, j) {
        WriteKeepsExact(nas.records, nas'.records, plan, i, j, Stored(nas, Want(plan, i)));
      }
      ExactIsDistinct(nas'.records, mine, plan, base, primary, additional);
    }
  }

  lemma TrackedIsExact(nas: Nas, plan: Plan, records: seq<ManagedRecord>, k: nat)
    requires 0 < k <= |plan.hosts| && Tracks(nas, plan, records, k)
    ensures Exact(nas.records, plan, 0)
  {
    var at := At(nas.records, plan.hosts[0].desc);
    AtMembers(nas.records, plan.hosts[0].desc);
    assert at == [at[0]];
  }

  lemma HostStaysApart(w: World, w': World, plan: Plan, i: nat, res: Result<ManagedRecord>, mine: set<string>,
      base: string, primary: string, additional: seq<string>)
    requires i < |plan.hosts| && Scheme(plan, base, primary, additional)
    requires Apart(w.nas.records, mine, plan) && (i > 0 ==> Exact(w.nas.records, plan, 0))
    requires HostDone(w, w', Want(plan, i), res)
    ensures Apart(w'.nas.records, mine, plan)
    ensures LogGrows(w.log, w'.log, (x: Exchange) => HostsDistinct(x.after, mine))
  {
    HostKeepsApart(w.nas, w'.nas, mine, plan, i, base, primary, additional);
    LogWeaken(w.log, w'.log, x => HostExchange(w.nas.records, w'.nas.records, plan.hosts[i].desc, x),
      (x: Exchange) => HostsDistinct(x.after, mine));
  }

  lemma ApartStep(w: World, plan: Plan, mine: set<string>, s: Synced, h: Did<ManagedRecord>, k: nat,
      base: string, primary: string, additional: seq<string>)
    requires 0 < k <= |plan.hosts| && Scheme(plan, base, primary, additional)
    requires ApartBy(w, plan, mine, s) && Tracks(s.w.nas, plan, s.records, k - 1)
    requires HostDone(s.w, h.w, Want(plan, k - 1), h.res)
    ensures ApartBy(w, plan, mine, Advance(s.records, h))
  {
    if k > 1 {
      TrackedIsExact(s.w.nas, plan, s.records, k - 1);
    }
    HostStaysApart(s.w, h.w, plan, k - 1, h.res, mine, base, primary, additional);
    LogGrowsTrans(w.log, s.w.log, h.w.log, (x: Exchange) => HostsDistinct(x.after, mine));
  }

  lemma NextHostApart(w: World, plan: Plan, managed: seq<ManagedRecord>, mine: set<string>, s: Synced, k: nat,
      base: string, primary: string, additional: seq<string>)
    requires 0 < k <= |plan.hosts| && Scheme(plan, base, primary, additional)
    requires ApartBy(w, plan, mine, s) && Upright(plan, s, k - 1) && s.halt == Running
    ensures ApartBy(w, plan, mine, Advance(s.records, SyncHost(s.w, plan, k - 1, managed)))
  {
    SyncHostEffect(s.w, plan, k - 1, managed);
    ApartStep(w, plan, mine, s, SyncHost(s.w, plan, k - 1, managed), k, base, primary, additional);
  }

  ghost predicate Upright(plan: Plan, s: Synced, k: nat)
    requires k <= |plan.hosts|
  {
    Sound(s.w.nas) && (s.halt == Running ==> Tracks(s.w.nas, plan, s.records, k))
  }

  lemma HostsUpright(w: World, plan: Plan, managed: seq<ManagedRecord>, k: nat,
      base: string, primary: string, additional: seq<string>)
    requires k <= |plan.hosts| && Sound(w.nas) && Scheme(plan, base, primary, additional)
    ensures Upright(plan, SyncHosts(w, plan, managed, k), k)
  {
    SchemeWellNamed(plan, base, primary, additional);
    SyncHostsEffect(w, plan, managed, k);
  }

  lemma {:induction false} HostsStayApart(w: World, plan: Plan, managed: seq<ManagedRecord>, mine: set<string>, k: nat,
      base: string, primary: string, additional: seq<string>)
    requires k <= |plan.hosts| && Sound(w.nas) && Scheme(plan, base, primary, additional)
    requires Apart(w.nas.records, mine, plan)
    ensures ApartBy(w, plan, mine, SyncHosts(w, plan, managed, k))
  {
    if k > 0 {
      HostsStayApart(w, plan, managed, mine, k - 1, base, primary, additional);
      HostsUpright(w, plan, managed, k - 1, base, primary, additional);
      var s := SyncHosts(w, plan, managed, k - 1);
      if s.halt == Running {
        NextHostApart(w, plan, managed, mine, s, k, base, primary, additional);
      }
    }
  }

  // ------------------------------------------------------------- the pass

  lemma SweepStaysApart(w: World, managed: seq<ManagedRecord>, desired: set<string>, k: nat, mine: set<string>)
    requires k <= |managed| && Sound(w.nas) && HostsDistinct(w.nas.records, mine)
    ensures LogGrows(w.log, Sweep(w, managed, desired, k).w.log, (x: Exchange) => HostsDistinct(x.after, mine))
  {
    var gone := SweepEffect(w, managed, desired, k);
    var stale := Stale(managed, desired, k);
    forall x | SweepExchange(w.nas.records, stale, x) ensures HostsDistinct(x.after, mine) {
      var g: set<string> :| g <= stale && x.after == Drop(w.nas.records, g);
      DistinctDrop(w.nas.records, g, mine);
    }
    LogWeaken(w.log, Sweep(w, managed, desired, k).w.log,
      x => SweepExchange(w.nas.records, stale, x), (x: Exchange) => HostsDistinct(x.after, mine));
  }

  /** After a sweep without failures only planned records of the rule are left. */
  lemma SweptIsApart(w: World, status: Status, plan: Plan, base: string, primary: string, additional: seq<string>)
    requires Sound(w.nas) && Scheme(plan, base, primary, additional)
    requires Named(w.nas.records, Mine(status, plan), base) && HostsDistinct(w.nas.records, Mine(status, plan))
    requires
      var sweep := Sweep(w, status.managed, Descs(plan), |status.managed|);
      !sweep.stopped && sweep.failed == []
    ensures
      var sweep := Sweep(w, status.managed, Descs(plan), |status.managed|);
      Sound(sweep.w.nas) && Apart(sweep.w.nas.records, Mine(status, plan), plan)
  {
    var mine := Mine(status, plan);
    var rs := w.nas.records;
    var gone := SweepEffect(w, status.managed, Descs(plan), |status.managed|);
    DropMembers(rs, gone);
    DistinctDrop(rs, gone, mine);
    forall m | m in status.managed && m.description !in Descs(plan) ensures m.description in gone {
      var i :| 0 <= i < |status.managed| && status.managed[i] == m;
    }
    NamedIsExact(Drop(rs, gone), mine, plan, base, primary, additional);
  }

  /** With the naming scheme, distinct hosts, an unchanged base and no failed stale
      delete, no state of the pass shows a collision, whatever the network does; not
      even when the primary host and an additional one swap. */
  lemma NoCollision(w: World, plan: Plan, status: Status, base: string, primary: string, additional: seq<string>)
    requires Sound(w.nas) && Scheme(plan, base, primary, additional)
    requires Named(w.nas.records, Mine(status, plan), base) && HostsDistinct(w.nas.records, Mine(status, plan))
    requires
      var sweep := Sweep(w, status.managed, Descs(plan), |status.managed|);
      sweep.stopped || sweep.failed == []
    ensures LogGrows(w.log, RunPlan(w, plan, status).w.log, (x: Exchange) => CollisionFree(x.after, Mine(status, plan)))
  {
    var mine := Mine(status, plan);
    var p := (x: Exchange) => HostsDistinct(x.after, mine);
    SweepStaysApart(w, status.managed, Descs(plan), |status.managed|, mine);
    var sweep := Sweep(w, status.managed, Descs(plan), |status.managed|);
    var w' := RunPlan(w, plan, status).w;
    if !sweep.stopped {
      SweptIsApart(w, status, plan, base, primary, additional);
      HostsStayApart(sweep.w, plan, status.managed, mine, |plan.hosts|, base, primary, additional);
      LogGrowsTrans(w.log, sweep.w.log, w'.log, p);
    }
    LogWeaken(w.log, w'.log, p, (x: Exchange) => CollisionFree(x.after, mine));
  }

  /** A record of the rule outside the plan that sits where a planned host is to go. */
  predicate InTheWay(rs: seq<ProxyEntry>, mine: set<string>, plan: Plan) {
    exists r, i | r in rs && 0 <= i < |plan.hosts| ::
      r.description in mine && r.description !in Descs(plan) && SameFrontend(r.frontend, Want(plan, i).frontend)
  }

  ghost predicate InPlace(rs: seq<ProxyEntry>, plan: Plan, i: nat)
    requires i < |plan.hosts|
  {
    && At(rs, plan.hosts[i].desc) != []
    && forall r | r in At(rs, plan.hosts[i].desc) :: SameFrontend(r.frontend, Want(plan, i).frontend)
  }

  /** What a finished pass leaves of the rule: the planned records, as planned, and of the
      others exactly what the sweep left. */
  ghost predicate PlannedAndLeft(swept: seq<ProxyEntry>, rs: seq<ProxyEntry>, plan: Plan) {
    && (forall i | 0 <= i < |plan.hosts| :: InPlace(rs, plan, i))
    && Drop(rs, Descs(plan)) == Drop(swept, Descs(plan))
  }

  lemma TrackedInPlace(nas: Nas, plan: Plan, records: seq<ManagedRecord>, i: nat)
    requires Tracks(nas, plan, records, |plan.hosts|) && i < |plan.hosts|
    ensures InPlace(nas.records, plan, i)
  {
    var at := At(nas.records, plan.hosts[i].desc);
    assert at == [at[0]];
  }

  lemma PlannedFrontend(rs: seq<ProxyEntry>, plan: Plan, r: ProxyEntry) returns (i: nat)
    requires forall k | 0 <= k < |plan.hosts| :: InPlace(rs, plan, k)
    requires r in rs && r.description in Descs(plan)
    ensures i < |plan.hosts| && plan.hosts[i].desc == r.description && SameFrontend(r.frontend, Want(plan, i).frontend)
  {
    i :| 0 <= i < |plan.hosts| && plan.hosts[i].desc == r.description;
    AtMembers(rs, r.description);
    assert InPlace(rs, plan, i);
  }

  lemma LeftCollides(swept: seq<ProxyEntry>, rs: seq<ProxyEntry>, plan: Plan, mine: set<string>)
    requires PlannedAndLeft(swept, rs, plan) && Descs(plan) <= mine && InTheWay(swept, mine, plan)
    ensures !CollisionFree(rs, mine)
  {
    var r, i :| r in swept && 0 <= i < |plan.hosts| && r.description in mine && r.description !in Descs(plan)
      && SameFrontend(r.frontend, Want(plan, i).frontend);
    DropMembers(rs, Descs(plan));
    DropMembers(swept, Descs(plan));
    assert r in Drop(swept, Descs(plan));
    AtMembers(rs, plan.hosts[i].desc);
    assert InPlace(rs, plan, i);
    var p := At(rs, plan.hosts[i].desc)[0];
    assert p in At(rs, plan.hosts[i].desc);
    assert r in rs && p in rs && SameFrontend(r.frontend, p.frontend) && r.description != p.description;
  }

  lemma LeftPair(swept: seq<ProxyEntry>, rs: seq<ProxyEntry>, plan: Plan, mine: set<string>, a: ProxyEntry,
      b: ProxyEntry, base: string, primary: string, additional: seq<string>)
    requires Scheme(plan, base, primary, additional)
    requires PlannedAndLeft(swept, rs, plan) && CollisionFree(swept, mine) && !InTheWay(swept, mine, plan)
    requires a in rs && b in rs && a.description in mine && b.description in mine
    requires SameFrontend(a.frontend, b.frontend)
    requires a.description in Descs(plan)
    ensures a.description == b.description
  {
    var i := PlannedFrontend(rs, plan, a);
    if b.description in Descs(plan) {
      var k := PlannedFrontend(rs, plan, b);
      SchemeWellNamed(plan, base, primary, additional);
      assert plan.hosts[i].host == plan.hosts[k].host;
    } else {
      DropMembers(rs, Descs(plan));
      DropMembers(swept, Descs(plan));
      assert b in Drop(rs, Descs(plan));
      assert b in swept && SameFrontend(b.frontend, Want(plan, i).frontend);
      assert false;
    }
  }

  lemma LeftIsFree(swept: seq<ProxyEntry>, rs: seq<ProxyEntry>, plan: Plan, mine: set<string>,
      base: string, primary: string, additional: seq<string>)
    requires Scheme(plan, base, primary, additional)
    requires PlannedAndLeft(swept, rs, plan) && CollisionFree(swept, mine) && !InTheWay(swept, mine, plan)
    ensures CollisionFree(rs, mine)
  {
    DropMembers(rs, Descs(plan));
    DropMembers(swept, Descs(plan));
    forall a, b | a in rs && b in rs && a.description in mine && b.description in mine
      && SameFrontend(a.frontend, b.frontend)
      ensures a.description == b.description
    {
      if a.description in Descs(plan) {
        LeftPair(swept, rs, plan, mine, a, b, base, primary, additional);
      } else if b.description in Descs(plan) {
        LeftPair(swept, rs, plan, mine, b, a, base, primary, additional);
      } else {
        assert a in Drop(rs, Descs(plan)) && b in Drop(rs, Descs(plan));
      }
    }
  }

  lemma FinishedLeaves(w: World, plan: Plan, status: Status)
    requires Sound(w.nas) && WellNamed(plan) && RunPlan(w, plan, status).halt == Running
    ensures
      var swept := Sweep(w, status.managed, Descs(plan), |status.managed|).w.nas.records;
      PlannedAndLeft(swept, RunPlan(w, plan, status).w.nas.records, plan)
  {
    var gone := SweepEffect(w, status.managed, Descs(plan), |status.managed|);
    var sweep := Sweep(w, status.managed, Descs(plan), |status.managed|);
    SyncHostsEffect(sweep.w, plan, status.managed, |plan.hosts|);
    var s := SyncHosts(sweep.w, plan, status.managed, |plan.hosts|);
    forall i | 0 <= i < |plan.hosts| ensures InPlace(s.w.nas.records, plan, i) {
      TrackedInPlace(s.w.nas, plan, s.records, i);
    }
  }

  /** A stale record that survives the sweep at a wanted frontend collides with the host it
      was in the way of, once the pass has finished. */
  lemma SurvivorCollides(w: World, plan: Plan, status: Status, i: nat, survivor: ProxyEntry)
    requires Sound(w.nas) && WellNamed(plan) && i < |plan.hosts|
    requires RunPlan(w, plan, status).halt == Running
    requires survivor in Sweep(w, status.managed, Descs(plan), |status.managed|).w.nas.records
    requires survivor.description in Mine(status, plan) && survivor.description !in Descs(plan)
    requires SameFrontend(survivor.frontend, Want(plan, i).frontend)
    ensures !CollisionFree(RunPlan(w, plan, status).w.nas.records, Mine(status, plan))
  {
    FinishedLeaves(w, plan, status);
    var swept := Sweep(w, status.managed, Descs(plan), |status.managed|).w.nas.records;
    LeftCollides(swept, RunPlan(w, plan, status).w.nas.records, plan, Mine(status, plan));
  }

  lemma SweptIsFree(w: World, status: Status, desired: set<string>, mine: set<string>)
    requires Sound(w.nas) && CollisionFree(w.nas.records, mine)
    ensures CollisionFree(Sweep(w, status.managed, desired, |status.managed|).w.nas.records, mine)
  {
    var gone := SweepEffect(w, status.managed, desired, |status.managed|);
    DropMembers(w.nas.records, gone);
  }

  /** After a finished pass on any network no two records of the rule collide exactly when
      nothing the sweep left behind is in the way, which can be told before the first
      upsert. */
  lemma CollidesExactly(w: World, plan: Plan, status: Status, base: string, primary: string, additional: seq<string>)
    requires Sound(w.nas) && Scheme(plan, base, primary, additional)
    requires CollisionFree(w.nas.records, Mine(status, plan))
    requires RunPlan(w, plan, status).halt == Running
    ensures
      var swept := Sweep(w, status.managed, Descs(plan), |status.managed|).w.nas.records;
      var rs := RunPlan(w, plan, status).w.nas.records;
      CollisionFree(rs, Mine(status, plan)) <==> !InTheWay(swept, Mine(status, plan), plan)
  {
    var mine := Mine(status, plan);
    var swept := Sweep(w, status.managed, Descs(plan), |status.managed|).w.nas.records;
    var rs := RunPlan(w, plan, status).w.nas.records;
    SchemeWellNamed(plan, base, primary, additional);
    FinishedLeaves(w, plan, status);
    SweptIsFree(w, status, Descs(plan), mine);
    if InTheWay(swept, mine, plan) {
      LeftCollides(swept, rs, plan, mine);
    } else {
      LeftIsFree(swept, rs, plan, mine, base, primary, additional);
    }
  }

  // ------------------------------------------------------- a run that collides

  /** A network on which the first request is refused and all others succeed. */
  const FIRST_REFUSED := [HEALTHY.(fate := Refused(ERR_UNKNOWN))]

  lemma RefusedSweep(w: World, m0: ManagedRecord, m1: ManagedRecord, desired: set<string>)
    requires w.script == FIRST_REFUSED
    requires m0.description in desired && m1.description !in desired
    ensures
      var s := Sweep(w, [m0, m1], desired, 2);
      && !s.stopped && s.failed == [m1] && s.w.script == [] && s.w.nas == w.nas
  {
    PostFirst(w, List);
    assert Sweep(w, [m0, m1], desired, 0) == Swept(w, [], false);
    assert Sweep(w, [m0, m1], desired, 1) == Swept(w, [], false);
    assert GetProxyRecord(w, m1.description).res.Err?;
  }

  /** An additional host becomes the primary while its stale record cannot be deleted:
      the pass starts without a collision and finishes with one. */
  lemma SwapCollides(w: World, plan: Plan, status: Status, base: string, host: string,
      m0: ManagedRecord, m1: ManagedRecord, stale: ProxyEntry)
    requires Sound(w.nas) && w.script == FIRST_REFUSED
    requires Scheme(plan, base, host, []) && status.managed == [m0, m1]
    requires m0.description == base && At(w.nas.records, base) != []
    requires m1.description == base + "/" + host && stale in w.nas.records && stale.description == m1.description
    requires SameFrontend(stale.frontend, Want(plan, 0).frontend)
    requires CollisionFree(w.nas.records, Mine(status, plan))
    ensures
      var p := RunPlan(w, plan, status);
      && p.halt == Running
      && !CollisionFree(p.w.nas.records, Mine(status, plan))
  {
    SchemeWellNamed(plan, base, host, []);
    OnlyBase(plan, base, host);
    RefusedSweep(w, m0, m1, Descs(plan));
    var sweep := Sweep(w, status.managed, Descs(plan), 2);
    SyncHealthy(sweep.w, plan, status.managed, 1);
    assert Clear(w.nas.records, plan, 0);
    assert InTheWay(sweep.w.nas.records, Mine(status, plan), plan) by {
      assert m1 in status.managed;
    }
    CollidesExactly(w, plan, status, base, host, []);
  }

  lemma OnlyBase(plan: Plan, base: string, host: string)
    requires Scheme(plan, base, host, [])
    ensures |plan.hosts| == 1 && plan.hosts[0] == HostEntry(base, host)
    ensures Descs(plan) == {base} && base + "/" + host !in Descs(plan)
  {
    assert |base + "/" + host| > |base|;
  }

  function Plain(uuid: Uuid, description: string, host: string): ProxyEntry {
    ProxyEntry(uuid, uuid, description, 60, 60, 60, 1, false,
      ProxyFrontend("", host, 443, 1, true), ProxyBackend("h", 80, 0), Some([]))
  }

  /** Such a start exists: the rule had the hosts "x" and "y", and now wants "y" alone. */
  lemma SwapHappens() returns (w: World, plan: Plan, status: Status)
    ensures Sound(w.nas) && CollisionFree(w.nas.records, Mine(status, plan))
    ensures
      var p := RunPlan(w, plan, status);
      p.halt == Running && !CollisionFree(p.w.nas.records, Mine(status, plan))
  {
    var r0, r1 := Plain(1, "b", "x"), Plain(2, "b/y", "y");
    var m0, m1 := ManagedRecord("b", 1, "x", ""), ManagedRecord("b/y", 2, "y", "");
    w := World(Nas([r0, r1], 3, [], [], [], false), FIRST_REFUSED, [], 0, "", "", 0);
    plan := Plan(ProxyRule("", "", 443, "h", 80, false, "", None, 60, 60, 60), HostsOf("b", "y", []), false, "h", 80);
    status := Status([m0, m1], 2, true, "h", 80);
    TwoRecordsSound(w.nas, r0, r1);
    assert "b" + "/" + "y" == "b/y";
    assert r0 in w.nas.records && r1 in w.nas.records;
    assert "x" != "y";
    SwapCollides(w, plan, status, "b", "y", m0, m1, r1);
  }

  lemma TwoRecordsSound(nas: Nas, r0: ProxyEntry, r1: ProxyEntry)
    requires nas.records == [r0, r1] && r0.description != r1.description
    requires NO_UUID < r0.uuid < r1.uuid < nas.next
    ensures Sound(nas) && At(nas.records, r0.description) == [r0]
  {
    assert [r0, r1][1..] == [r1] && [r1][1..] == [];
    forall d
      ensures At([r0, r1], d) == (if r0.description == d then [r0] else []) + if r1.description == d then [r1] else []
    {
      assert At([r1], d) == if r1.description == d then [r1] else [];
    }
  }
}
