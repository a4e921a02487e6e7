/** What a whole pass does: on any network, on a healthy one, and when repeated. */
module Convergence {
  import opened Util
  import opened Dsm
  import opened Client
  import opened Proxy
  import opened CertificateService
  import opened Rules
  import opened Sync

  /** A request of a pass: reads, certificate rows, deletes, and writes of planned
      descriptions only. */
  ghost predicate PassExchange(descs: set<string>, x: Exchange) {
    PlanExchange(descs, x) || x.req.Delete?
  }

  function AllStale(status: Status, plan: Plan): set<string> {
    Stale(status.managed, Descs(plan), |status.managed|)
  }

  /** The descriptions a pass may touch. */
  function Territory(status: Status, plan: Plan): set<string> {
    Descs(plan) + AllStale(status, plan)
  }

  /** A record outside the plan is kept or deleted, never changed. */
  ghost predicate KeptOrGone(rs: seq<ProxyEntry>, rs': seq<ProxyEntry>, d: string) {
    At(rs', d) == At(rs, d) || At(rs', d) == []
  }

  /** The status of a finished pass: the hosts in order, as DSM has them, then the
      stale records whose deletion failed, in their old order; and nothing that is
      dropped from it is still in DSM. */
  ghost predicate Conserves(status: Status, plan: Plan, p: Pass, failed: seq<ManagedRecord>) {
    var n := |plan.hosts|;
    && |p.status.managed| == n + |failed|
    && p.status.managed[n..] == failed
    && Tracks(p.w.nas, plan, p.status.managed[..n], n)
    && Sublist(failed, status.managed)
    && (forall m | m in failed :: m.description !in Descs(plan))
    && (p.write ==> p.status.count == |p.status.managed|)
    && (!p.write ==> p.status == status)
    && (forall m | m in status.managed && m.description !in Descs(plan) ::
          m in failed || At(p.w.nas.records, m.description) == [])
  }

  ghost predicate PassDone(w: World, plan: Plan, status: Status, p: Pass) {
    && Sound(p.w.nas)
    && SameTables(w.nas, p.w.nas)
    && (forall d | d !in Territory(status, plan) :: At(p.w.nas.records, d) == At(w.nas.records, d))
    && Drop(p.w.nas.records, Territory(status, plan)) == Drop(w.nas.records, Territory(status, plan))
    && (forall d | d !in Descs(plan) :: KeptOrGone(w.nas.records, p.w.nas.records, d))
    && LogGrows(w.log, p.w.log, x => PassExchange(Descs(plan), x))
    && (p.halt != Running ==> !p.write && p.status == status)
  }

  lemma RecordsAfter(rs: seq<ProxyEntry>, gone: set<string>, rs': seq<ProxyEntry>, status: Status, plan: Plan)
    requires gone <= AllStale(status, plan)
    requires Drop(rs', Descs(plan)) == Drop(Drop(rs, gone), Descs(plan))
    ensures Drop(rs', Territory(status, plan)) == Drop(rs, Territory(status, plan))
    ensures forall d | d !in Territory(status, plan) :: At(rs', d) == At(rs, d)
    ensures forall d | d !in Descs(plan) :: KeptOrGone(rs, rs', d)
    ensures forall d | d in gone && d !in Descs(plan) :: At(rs', d) == []
  {
    var t := Territory(status, plan);
    DropWider(rs', Drop(rs, gone), Descs(plan), t);
    DropDrop(rs, gone, t);
    assert gone + t == t;
    forall d | d !in t ensures At(rs', d) == At(rs, d) {
      AtFrame(rs', rs, t, d);
    }
    forall d | d !in Descs(plan) ensures KeptOrGone(rs, rs', d) && (d in gone ==> At(rs', d) == []) {
      AtFrame(rs', Drop(rs, gone), Descs(plan), d);
      AtDrop(rs, gone, d);
    }
  }

  lemma PassLog(w: World, w1: World, w2: World, stale: set<string>, descs: set<string>)
    requires LogGrows(w.log, w1.log, x => SweepExchange(w.nas.records, stale, x))
    requires LogGrows(w1.log, w2.log, x => PlanExchange(descs, x))
    ensures LogGrows(w.log, w2.log, x => PassExchange(descs, x))
  {
    var p := x => PassExchange(descs, x);
    LogWeaken(w.log, w1.log, x => SweepExchange(w.nas.records, stale, x), p);
    LogWeaken(w1.log, w2.log, x => PlanExchange(descs, x), p);
    LogGrowsTrans(w.log, w1.log, w2.log, p);
  }

  /** A pass on any network, stopped anywhere. */
  lemma PassEffect(w: World, plan: Plan, status: Status) returns (failed: seq<ManagedRecord>)
    requires Sound(w.nas) && WellNamed(plan)
    ensures
      var p := RunPlan(w, plan, status);
      && PassDone(w, plan, status, p)
      && (p.halt == Running ==> Conserves(status, plan, p, failed))
  {
    var managed := status.managed;
    var sweep := Sweep(w, managed, Descs(plan), |managed|);
    var gone := SweepEffect(w, managed, Descs(plan), |managed|);
    SweepFailures(w, managed, Descs(plan), |managed|);
    assert managed[..|managed|] == managed;
    failed := sweep.failed;
    var p := RunPlan(w, plan, status);
    var stale := AllStale(status, plan);
    if sweep.stopped {
      RecordsAfter(w.nas.records, gone, sweep.w.nas.records, status, plan);
      LogWeaken(w.log, sweep.w.log, x => SweepExchange(w.nas.records, stale, x), x => PassExchange(Descs(plan), x));
    } else {
      SyncHostsEffect(sweep.w, plan, managed, |plan.hosts|);
      var s := SyncHosts(sweep.w, plan, managed, |plan.hosts|);
      assert p.w == s.w;
      RecordsAfter(w.nas.records, gone, s.w.nas.records, status, plan);
      PassLog(w, sweep.w, s.w, stale, Descs(plan));
      if s.halt == Running {
        PassStatus(w, plan, status, gone);
      }
    }
  }

  /** What a sweep leaves out of its failures is gone. */
  lemma NothingForgotten(w: World, plan: Plan, managed: seq<ManagedRecord>, gone: set<string>, rs: seq<ProxyEntry>)
    requires SweptBy(w, managed, Descs(plan), |managed|, gone)
    requires !Sweep(w, managed, Descs(plan), |managed|).stopped
    requires forall d | d in gone && d !in Descs(plan) :: At(rs, d) == []
    ensures forall m | m in managed && m.description !in Descs(plan) ::
      m in Sweep(w, managed, Descs(plan), |managed|).failed || At(rs, m.description) == []
  {
    forall m | m in managed && m.description !in Descs(plan)
      ensures m in Sweep(w, managed, Descs(plan), |managed|).failed || At(rs, m.description) == []
    {
      var i :| 0 <= i < |managed| && managed[i] == m;
    }
  }

  lemma PassStatus(w: World, plan: Plan, status: Status, gone: set<string>)
    requires SweptBy(w, status.managed, Descs(plan), |status.managed|, gone)
    requires
      var sweep := Sweep(w, status.managed, Descs(plan), |status.managed|);
      var s := SyncHosts(sweep.w, plan, status.managed, |plan.hosts|);
      && !sweep.stopped && s.halt == Running
      && Tracks(s.w.nas, plan, s.records, |plan.hosts|)
      && Sublist(sweep.failed, status.managed)
      && (forall d | d in gone && d !in Descs(plan) :: At(s.w.nas.records, d) == [])
    ensures
      var sweep := Sweep(w, status.managed, Descs(plan), |status.managed|);
      Conserves(status, plan, RunPlan(w, plan, status), sweep.failed)
  {
    var sweep := Sweep(w, status.managed, Descs(plan), |status.managed|);
    var s := SyncHosts(sweep.w, plan, status.managed, |plan.hosts|);
    NothingForgotten(w, plan, status.managed, gone, s.w.nas.records);
    assert RunPlan(w, plan, status).status.managed == s.records + sweep.failed;
  }

  /** The status of a finished pass, field by field. While stale records remain only the list
      and its length change; otherwise status and plan agree, and there is a write exactly
      when they, or the records, did not before. */
  lemma StatusExactly(w: World, plan: Plan, status: Status)
    requires RunPlan(w, plan, status).halt == Running
    ensures
      var p := RunPlan(w, plan, status);
      var n := |plan.hosts|;
      && |p.status.managed| >= n
      && (|p.status.managed| > n ==>
            && p.write && p.status == status.(managed := p.status.managed, count := |p.status.managed|))
      && (|p.status.managed| == n ==>
            && (p.write <==>
                  || status.managed != p.status.managed || !status.synced
                  || status.resolvedHost != plan.destHost || status.resolvedPort != plan.destPort)
            && p.status == if p.write then Status(p.status.managed, n, true, plan.destHost, plan.destPort) else status)
  {
    var sweep := Sweep(w, status.managed, Descs(plan), |status.managed|);
    CountsHosts(sweep.w, plan, status.managed, |plan.hosts|);
  }

  lemma {:induction false} CountsHosts(w: World, plan: Plan, managed: seq<ManagedRecord>, k: nat)
    requires k <= |plan.hosts| && SyncHosts(w, plan, managed, k).halt == Running
    ensures |SyncHosts(w, plan, managed, k).records| == k
  {
    if k > 0 {
      CountsHosts(w, plan, managed, k - 1);
    }
  }

  // ------------------------------------------------------- a healthy network

  /** A record in the way of creating host `k`: one no earlier host will move, or an
      earlier host of the plan itself. */
  predicate Blocked(rs: seq<ProxyEntry>, plan: Plan, k: nat)
    requires k < |plan.hosts|
  {
    || (exists r | r in rs :: SameFrontend(r.frontend, Want(plan, k).frontend) && r.description !in DescsUpTo(plan, k))
    || (exists j | 0 <= j < k :: plan.hosts[j].host == plan.hosts[k].host)
  }

  /** Host `k` has a record, or will have by its turn, or its frontend is free. */
  predicate Clear(rs: seq<ProxyEntry>, plan: Plan, k: nat)
    requires k < |plan.hosts|
  {
    || At(rs, plan.hosts[k].desc) != []
    || plan.hosts[k].desc in DescsUpTo(plan, k)
    || !Blocked(rs, plan, k)
  }

  predicate Unobstructed(rs: seq<ProxyEntry>, plan: Plan, n: nat)
    requires n <= |plan.hosts|
  {
    forall k | 0 <= k < n :: Clear(rs, plan, k)
  }

  lemma {:induction false} SweepHealthy(w: World, managed: seq<ManagedRecord>, desired: set<string>, k: nat)
    requires k <= |managed| && Sound(w.nas) && w.script == []
    ensures
      var s := Sweep(w, managed, desired, k);
      && s.w.script == [] && !s.stopped && s.failed == []
      && s.w.nas == w.nas.(records := Drop(w.nas.records, Stale(managed, desired, k)))
  {
    if k == 0 {
      DropNothing(w.nas.records, {});
      assert Stale(managed, desired, 0) == {};
    } else {
      SweepHealthy(w, managed, desired, k - 1);
      SweepHealthyStep(w.nas, Sweep(w, managed, desired, k - 1), managed, desired, k);
    }
  }

  lemma SweepHealthyStep(nas: Nas, s: Swept, managed: seq<ManagedRecord>, desired: set<string>, k: nat)
    requires 0 < k <= |managed| && Sound(nas) && s.w.script == [] && !s.stopped && s.failed == []
    requires s.w.nas == nas.(records := Drop(nas.records, Stale(managed, desired, k - 1)))
    ensures
      var s' := SweepStep(s, managed[k - 1], desired);
      && s'.w.script == [] && !s'.stopped && s'.failed == []
      && s'.w.nas == nas.(records := Drop(nas.records, Stale(managed, desired, k)))
  {
    var d, before := managed[k - 1].description, Stale(managed, desired, k - 1);
    if d !in desired {
      DropKeepsSound(nas, before);
      DeleteHealthy(s.w, d);
      DropDrop(nas.records, before, {d});
      assert before + {d} == Stale(managed, desired, k);
    } else {
      assert before == Stale(managed, desired, k);
    }
  }

  lemma TakenIsBlocked(rs: seq<ProxyEntry>, nas: Nas, plan: Plan, records: seq<ManagedRecord>, k: nat)
    requires k < |plan.hosts| && Tracks(nas, plan, records, k)
    requires Drop(nas.records, DescsUpTo(plan, k)) == Drop(rs, DescsUpTo(plan, k))
    requires FrontendTaken(nas.records, Want(plan, k).frontend)
    ensures Blocked(rs, plan, k)
  {
    var ds := DescsUpTo(plan, k);
    var r :| r in nas.records && SameFrontend(r.frontend, Want(plan, k).frontend);
    if r.description in ds {
      var j :| 0 <= j < k && plan.hosts[j].desc == r.description;
      AtMembers(nas.records, r.description);
      var at := At(nas.records, r.description);
      assert r in at && at == [at[0]];
      assert plan.hosts[j].host == plan.hosts[k].host;
    } else {
      DropMembers(nas.records, ds);
      DropMembers(rs, ds);
      assert r in Drop(nas.records, ds);
    }
  }

  lemma BlockedIsTaken(rs: seq<ProxyEntry>, nas: Nas, plan: Plan, records: seq<ManagedRecord>, k: nat)
    requires k < |plan.hosts| && Tracks(nas, plan, records, k)
    requires Drop(nas.records, DescsUpTo(plan, k)) == Drop(rs, DescsUpTo(plan, k))
    requires Blocked(rs, plan, k)
    ensures FrontendTaken(nas.records, Want(plan, k).frontend)
  {
    var ds, f := DescsUpTo(plan, k), Want(plan, k).frontend;
    if r :| r in rs && SameFrontend(r.frontend, f) && r.description !in ds {
      DropMembers(nas.records, ds);
      DropMembers(rs, ds);
      assert r in Drop(rs, ds);
      assert r in nas.records;
    } else {
      var j :| 0 <= j < k && plan.hosts[j].host == plan.hosts[k].host;
      var at := At(nas.records, plan.hosts[j].desc);
      AtMembers(nas.records, plan.hosts[j].desc);
      assert at[0] in at;
      assert at[0] in nas.records && SameFrontend(at[0].frontend, f);
    }
  }

  /** At its turn, host `k` can be upserted exactly when it was clear at the start. */
  lemma TurnIsClear(rs: seq<ProxyEntry>, nas: Nas, plan: Plan, records: seq<ManagedRecord>, k: nat)
    requires k < |plan.hosts|
    requires Drop(nas.records, DescsUpTo(plan, k)) == Drop(rs, DescsUpTo(plan, k))
    requires Tracks(nas, plan, records, k)
    ensures At(nas.records, plan.hosts[k].desc) != [] || !FrontendTaken(nas.records, Want(plan, k).frontend)
       <==> Clear(rs, plan, k)
  {
    var ds, d := DescsUpTo(plan, k), plan.hosts[k].desc;
    if d in ds {
      var j :| 0 <= j < k && plan.hosts[j].desc == d;
    } else {
      AtFrame(nas.records, rs, ds, d);
      if FrontendTaken(nas.records, Want(plan, k).frontend) {
        TakenIsBlocked(rs, nas, plan, records, k);
      } else if Blocked(rs, plan, k) {
        BlockedIsTaken(rs, nas, plan, records, k);
      }
    }
  }

  /** A record as a user sees it: its identifiers do not matter. */
  function Face(r: ProxyEntry): ProxyEntry {
    r.(uuid := NO_UUID, key := 0)
  }

  /** What the record list shows for a description after an upsert of `e`. */
  function Goal(at: seq<ProxyEntry>, e: ProxyEntry): ProxyEntry {
    if at != [] && ProxyRecordEqual(at[0], e) then Face(at[0]) else Face(e)
  }

  ghost predicate Reached(rs: seq<ProxyEntry>, nas: Nas, plan: Plan, k: nat)
    requires k <= |plan.hosts|
  {
    forall i | 0 <= i < k ::
      var at := At(nas.records, plan.hosts[i].desc);
      |at| == 1 && Face(at[0]) == Goal(At(rs, plan.hosts[i].desc), Want(plan, i))
  }

  lemma ReachedAt(rs: seq<ProxyEntry>, nas: Nas, plan: Plan, k: nat)
    requires 0 < k <= |plan.hosts| && WellNamed(plan)
    requires Reached(rs, nas, plan, k - 1)
    requires Drop(nas.records, DescsUpTo(plan, k - 1)) == Drop(rs, DescsUpTo(plan, k - 1))
    ensures
      var e := Want(plan, k - 1);
      Face(Settled(nas, e)[0]) == Goal(At(rs, e.description), e)
  {
    var d := plan.hosts[k - 1].desc;
    if d in DescsUpTo(plan, k - 1) {
      var j :| 0 <= j < k - 1 && plan.hosts[j].desc == d;
      assert plan.hosts[j] == plan.hosts[k - 1];
    } else {
      AtFrame(nas.records, rs, DescsUpTo(plan, k - 1), d);
    }
  }

  lemma ReachedStep(rs: seq<ProxyEntry>, nas: Nas, nas': Nas, plan: Plan, k: nat)
    requires 0 < k <= |plan.hosts| && WellNamed(plan)
    requires Reached(rs, nas, plan, k - 1)
    requires Drop(nas.records, DescsUpTo(plan, k - 1)) == Drop(rs, DescsUpTo(plan, k - 1))
    requires Drop(nas'.records, {plan.hosts[k - 1].desc}) == Drop(nas.records, {plan.hosts[k - 1].desc})
    requires At(nas'.records, plan.hosts[k - 1].desc) == Settled(nas, Want(plan, k - 1))
    requires |At(nas'.records, plan.hosts[k - 1].desc)| == 1
    ensures Reached(rs, nas', plan, k)
  {
    var d := plan.hosts[k - 1].desc;
    ReachedAt(rs, nas, plan, k);
    forall i | 0 <= i < k
      ensures plan.hosts[i].desc == d ==> plan.hosts[i] == plan.hosts[k - 1]
      ensures plan.hosts[i].desc != d ==> At(nas'.records, plan.hosts[i].desc) == At(nas.records, plan.hosts[i].desc)
    {
      if plan.hosts[i].desc != d {
        AtFrame(nas.records, nas'.records, {d}, plan.hosts[i].desc);
      }
    }
  }

  /** Where a healthy pass is after `k` hosts. */
  ghost predicate HealthyBy(w: World, plan: Plan, s: Synced, k: nat)
    requires k <= |plan.hosts|
  {
    && s.w.script == [] && s.halt != Crashed
    && (s.halt == Running <==> Unobstructed(w.nas.records, plan, k))
    && (s.halt == Running ==> Reached(w.nas.records, s.w.nas, plan, k))
  }

  /** The upserts of a healthy pass all succeed exactly when every host is clear, and
      then DSM shows the goal of every host. */
  lemma {:induction false} SyncHealthy(w: World, plan: Plan, managed: seq<ManagedRecord>, k: nat)
    requires k <= |plan.hosts| && Sound(w.nas) && WellNamed(plan) && w.script == []
    ensures HealthyBy(w, plan, SyncHosts(w, plan, managed, k), k)
  {
    if k > 0 {
      SyncHealthy(w, plan, managed, k - 1);
      SyncHostsEffect(w, plan, managed, k - 1);
      SyncHealthyStep(w, plan, managed, SyncHosts(w, plan, managed, k - 1), k);
    }
  }

  lemma SyncHealthyStep(w: World, plan: Plan, managed: seq<ManagedRecord>, s: Synced, k: nat)
    requires 0 < k <= |plan.hosts| && WellNamed(plan)
    requires SyncedBy(w, plan, s, k - 1) && HealthyBy(w, plan, s, k - 1)
    ensures s.halt != Running ==> HealthyBy(w, plan, s, k)
    ensures s.halt == Running ==> HealthyBy(w, plan, Advance(s.records, SyncHost(s.w, plan, k - 1, managed)), k)
  {
    assert Unobstructed(w.nas.records, plan, k)
      <==> Unobstructed(w.nas.records, plan, k - 1) && Clear(w.nas.records, plan, k - 1);
    if s.halt == Running {
      TurnIsClear(w.nas.records, s.w.nas, plan, s.records, k - 1);
      SyncHostHealthy(s.w, plan, k - 1, managed);
      var h := SyncHost(s.w, plan, k - 1, managed);
      if h.res.Ok? {
        SyncHostEffect(s.w, plan, k - 1, managed);
        ReachedStep(w.nas.records, s.w.nas, h.w.nas, plan, k);
      }
    }
  }

  lemma CertifyHealthy(w: World, plan: Plan, h: HostEntry, prev: Option<ManagedRecord>, up: Upserted)
    requires w.script == []
    ensures
      var c := Certify(w, plan, h, prev, up);
      && c.w.script == [] && c.res.Ok? && c.w.nas == w.nas.(services := c.w.nas.services)
  {
    CertifyEffect(w, plan, h, prev, up);
    var kept := Retire(w, prev, up.uuid, h.host);
    if prev.Some? {
      UnassignHealthy(w, prev.value.uuid, h.host);
    }
    AssignHealthy(kept.w, up.uuid, h.host, if kept.res.Ok? then kept.res.value else "");
  }

  lemma SyncHostHealthy(w: World, plan: Plan, i: nat, managed: seq<ManagedRecord>)
    requires i < |plan.hosts| && Sound(w.nas) && w.script == []
    ensures
      var e := Want(plan, i);
      var h := SyncHost(w, plan, i, managed);
      && h.w.script == [] && !h.res.Stopped?
      && (h.res.Ok? <==> At(w.nas.records, e.description) != [] || !FrontendTaken(w.nas.records, e.frontend))
      && (h.res.Ok? ==> At(h.w.nas.records, e.description) == Settled(w.nas, e))
  {
    UpsertHealthy(w, RuleAt(plan, i));
    var u := Upsert(w, RuleAt(plan, i));
    if u.res.Ok? {
      CertifyHealthy(u.w, plan, plan.hosts[i], PrevOf(managed, plan.hosts[i].desc), u.res.value);
    }
  }

  /** DSM and the status both say what the plan says. */
  ghost predicate Converged(nas: Nas, plan: Plan, status: Status) {
    && Tracks(nas, plan, status.managed, |plan.hosts|)
    && status.synced
    && status.resolvedHost == plan.destHost
    && status.resolvedPort == plan.destPort
  }

  /** One healthy pass, from any status and any DSM: it finishes exactly when no host
      is obstructed once the stale records are gone; and then DSM shows the goal of
      every host, holds no stale record, is otherwise as before, and the status
      agrees. */
  lemma HealthyPass(w: World, plan: Plan, status: Status)
    requires Sound(w.nas) && WellNamed(plan) && w.script == []
    ensures
      var p := RunPlan(w, plan, status);
      var stale := AllStale(status, plan);
      && p.w.script == []
      && (p.halt == Running <==> Unobstructed(Drop(w.nas.records, stale), plan, |plan.hosts|))
      && (p.halt == Running ==>
            && Reached(w.nas.records, p.w.nas, plan, |plan.hosts|)
            && Drop(p.w.nas.records, Descs(plan)) == Drop(w.nas.records, Territory(status, plan))
            && Converged(p.w.nas, plan, p.status))
  {
    var managed := status.managed;
    var stale := AllStale(status, plan);
    SweepHealthy(w, managed, Descs(plan), |managed|);
    DropKeepsSound(w.nas, stale);
    var sweep := Sweep(w, managed, Descs(plan), |managed|);
    SyncHealthy(sweep.w, plan, managed, |plan.hosts|);
    SyncHostsEffect(sweep.w, plan, managed, |plan.hosts|);
    var s := SyncHosts(sweep.w, plan, managed, |plan.hosts|);
    if s.halt == Running {
      DropDrop(w.nas.records, stale, Descs(plan));
      assert stale + Descs(plan) == Territory(status, plan);
      SweepSpares(w.nas.records, stale, sweep.w.nas.records, s.w.nas, plan);
    }
  }

  lemma FailedHostChanges(w: World, plan: Plan, managed: seq<ManagedRecord>, i: nat)
    requires Sound(w.nas) && w.script == [] && i < |plan.hosts|
    ensures SyncHost(w, plan, i, managed).res.Err? ==> SyncHost(w, plan, i, managed).w.nas == w.nas
  {
    UpsertHealthy(w, RuleAt(plan, i));
    var u := Upsert(w, RuleAt(plan, i));
    if u.res.Ok? {
      CertifyHealthy(u.w, plan, plan.hosts[i], PrevOf(managed, plan.hosts[i].desc), u.res.value);
    }
  }

  /** A host that does not get its turn, or whose turn fails, has no more than before. */
  lemma StoppedAt(plan: Plan, managed: seq<ManagedRecord>, s: Synced, i: nat)
    requires Sound(s.w.nas) && s.w.script == [] && i < |plan.hosts|
    requires s.halt == Running && Advance(s.records, SyncHost(s.w, plan, i, managed)).halt != Running
    ensures Advance(s.records, SyncHost(s.w, plan, i, managed)).w.nas == s.w.nas
  {
    SyncHostHealthy(s.w, plan, i, managed);
    FailedHostChanges(s.w, plan, managed, i);
  }

  lemma StopsThere(w: World, plan: Plan, managed: seq<ManagedRecord>, k: nat)
    requires Sound(w.nas) && WellNamed(plan) && w.script == []
    requires k < |plan.hosts| && !Clear(w.nas.records, plan, k)
    requires SyncHosts(w, plan, managed, k).halt == Running
    ensures SyncHosts(w, plan, managed, |plan.hosts|).w.nas == SyncHosts(w, plan, managed, k).w.nas
  {
    HaltsBefore(w, plan, managed, k);
    StoppedAt(plan, managed, SyncHosts(w, plan, managed, k), k);
    HaltStays(w, plan, managed, k + 1, |plan.hosts|);
  }

  lemma RunsUpTo(w: World, plan: Plan, managed: seq<ManagedRecord>, k: nat)
    requires Sound(w.nas) && WellNamed(plan) && w.script == [] && k <= |plan.hosts|
    ensures SyncHosts(w, plan, managed, k).halt == Running <==> Unobstructed(w.nas.records, plan, k)
  {
    SyncHealthy(w, plan, managed, k);
  }

  /** Where a healthy pass that does not finish stops: at the first host that is not clear,
      with DSM as the hosts before it left it. */
  lemma StopsAt(w: World, plan: Plan, managed: seq<ManagedRecord>) returns (k: nat)
    requires Sound(w.nas) && WellNamed(plan) && w.script == []
    requires SyncHosts(w, plan, managed, |plan.hosts|).halt != Running
    ensures k < |plan.hosts| && Unobstructed(w.nas.records, plan, k) && !Clear(w.nas.records, plan, k)
    ensures SyncHosts(w, plan, managed, k).halt == Running
    ensures SyncHosts(w, plan, managed, |plan.hosts|).w.nas == SyncHosts(w, plan, managed, k).w.nas
  {
    RunsUpTo(w, plan, managed, |plan.hosts|);
    k := FirstUnclear(w.nas.records, plan, |plan.hosts|);
    RunsUpTo(w, plan, managed, k);
    StopsThere(w, plan, managed, k);
  }

  lemma {:induction false} FirstUnclear(rs: seq<ProxyEntry>, plan: Plan, n: nat) returns (k: nat)
    requires n <= |plan.hosts| && !Unobstructed(rs, plan, n)
    ensures k < n && Unobstructed(rs, plan, k) && !Clear(rs, plan, k)
  {
    if Unobstructed(rs, plan, n - 1) {
      k := n - 1;
    } else {
      k := FirstUnclear(rs, plan, n - 1);
    }
  }

  lemma HaltsBefore(w: World, plan: Plan, managed: seq<ManagedRecord>, i: nat)
    requires Sound(w.nas) && WellNamed(plan) && w.script == []
    requires i < |plan.hosts| && !Clear(w.nas.records, plan, i)
    ensures SyncHosts(w, plan, managed, i + 1).halt != Running
    ensures
      var s := SyncHosts(w, plan, managed, i);
      && Sound(s.w.nas) && s.w.script == []
      && Drop(s.w.nas.records, DescsUpTo(plan, i)) == Drop(w.nas.records, DescsUpTo(plan, i))
  {
    SyncHealthy(w, plan, managed, i);
    SyncHealthy(w, plan, managed, i + 1);
    SyncHostsEffect(w, plan, managed, i);
  }

  /** Deleting stale records does not change what is at a planned description. */
  lemma SweepSpares(rs: seq<ProxyEntry>, stale: set<string>, swept: seq<ProxyEntry>, nas: Nas, plan: Plan)
    requires swept == Drop(rs, stale) && stale !! Descs(plan)
    requires Reached(swept, nas, plan, |plan.hosts|)
    ensures Reached(rs, nas, plan, |plan.hosts|)
  {
    forall i | 0 <= i < |plan.hosts| ensures At(swept, plan.hosts[i].desc) == At(rs, plan.hosts[i].desc) {
      AtDrop(rs, stale, plan.hosts[i].desc);
    }
  }

  // ------------------------------------------------------- a pass repeated

  /** No host is listed twice. */
  ghost predicate Distinct(plan: Plan) {
    forall i, j | 0 <= i < j < |plan.hosts| :: plan.hosts[i].desc != plan.hosts[j].desc
  }

  lemma DistinctIsWellNamed(plan: Plan)
    requires Distinct(plan)
    ensures WellNamed(plan)
  {
    forall i, j | 0 <= i < |plan.hosts| && 0 <= j < |plan.hosts| && plan.hosts[i].desc == plan.hosts[j].desc
      ensures i == j
    {
    }
  }

  lemma {:induction false} SweepNothing(w: World, managed: seq<ManagedRecord>, desired: set<string>, k: nat)
    requires k <= |managed| && forall m | m in managed :: m.description in desired
    ensures Sweep(w, managed, desired, k) == Swept(w, [], false)
  {
    if k > 0 {
      SweepNothing(w, managed, desired, k - 1);
    }
  }

  /** DSM is as before, and nothing was sent but requests for the record list. */
  ghost predicate OnlyListed(w: World, w': World) {
    w'.nas == w.nas && LogGrows(w.log, w'.log, (x: Exchange) => x.req == List && x.after == w.nas.records)
  }

  lemma OnlyListedTrans(a: World, b: World, c: World)
    requires OnlyListed(a, b) && OnlyListed(b, c)
    ensures OnlyListed(a, c)
  {
    LogGrowsTrans(a.log, b.log, c.log, (x: Exchange) => x.req == List && x.after == a.nas.records);
  }

  lemma GetLists(w: World, d: string)
    ensures OnlyListed(w, GetProxyRecord(w, d).w)
  {
    PostEffect(w, List);
    LogWeaken(w.log, Post(w, List).w.log, x => Arrived(w.nas, w.nas, List, x),
      (x: Exchange) => x.req == List && x.after == w.nas.records);
  }
}
