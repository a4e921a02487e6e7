/** Certificate rows of a pass on any network: which ones it can change at all. */
module Rows {
  import opened Util
  import opened Dsm
  import opened Client
  import opened Proxy
  import opened CertificateChoice
  import opened CertificateService
  import opened Rules
  import opened Sync
  import opened Convergence
  import opened Ledger

  // ------------------------------------------------------------ one request

  lemma SetLeaves(ss: seq<ServiceEntry>, u: Uuid, oldId: string, id: string, v: Uuid)
    requires v != u
    ensures CertsOf(SetService(ss, u, oldId, id), v) == CertsOf(ss, v)
  {
    RowsWithout(ss, u, v);
    RowsSwap(ss, u, oldId, id, v);
    RowsAppend(ss, ServiceEntry(u, id), v);
  }

  lemma {:induction false} PostLeaves(w: World, req: Request, v: Uuid)
    requires req.SetCert? && req.service != v
    ensures CertsOf(Post(w, req).w.nas.services, v) == CertsOf(w.nas.services, v)
    decreases |w.script|
  {
    AttemptEffect(w, req);
    SetLeaves(w.nas.services, req.service, req.oldId, req.id, v);
    var step := Attempt(w, req);
    if step.Again? {
      PostLeaves(step.w, req, v);
    }
  }

  lemma AssignLeaves(w: World, uuid: Uuid, hostname: string, prevCertID: string, v: Uuid)
    requires v != uuid
    ensures CertsOf(AssignCertificate(w, uuid, hostname, prevCertID).w.nas.services, v) == CertsOf(w.nas.services, v)
  {
    PostListCerts(w);
    var l := Post(w, ListCerts);
    PostLeaves(l.w, SetCert(uuid, hostname, prevCertID, BestCert(w.nas.certificates, hostname).0), v);
  }

  /** The certificate of a host: only the rows of its record, and of the one tracked before it,
      can change. */
  lemma CertifyLeaves(w: World, plan: Plan, h: HostEntry, prev: Option<ManagedRecord>, up: Upserted, v: Uuid)
    requires !TouchesRows(prev, up.uuid, v)
    ensures CertsOf(Certify(w, plan, h, prev, up).w.nas.services, v) == CertsOf(w.nas.services, v)
  {
    var kept := Retire(w, prev, up.uuid, h.host);
    if prev.Some? && prev.value.uuid != NO_UUID {
      PostLeaves(w, SetCert(prev.value.uuid, h.host, "", ""), v);
    }
    if kept.res.Ok? {
      AssignLeaves(kept.w, up.uuid, h.host, kept.res.value, v);
    }
  }

  // ---------------------------------------------------- UUIDs keep their names

  /** A record has the UUID and the description of one that was there, or a fresh UUID. */
  ghost predicate Named(nas: Nas, r: ProxyEntry) {
    r.uuid >= nas.next || exists q | q in nas.records :: q.uuid == r.uuid && q.description == r.description
  }

  ghost predicate NoRename(nas: Nas, nas': Nas) {
    nas.next <= nas'.next && forall r | r in nas'.records :: Named(nas, r)
  }

  lemma NoRenameTrans(a: Nas, b: Nas, c: Nas)
    requires NoRename(a, b) && NoRename(b, c)
    ensures NoRename(a, c)
  {
    forall r | r in c.records ensures Named(a, r) {
      assert Named(b, r);
      if r.uuid < b.next {
        var q :| q in b.records && q.uuid == r.uuid && q.description == r.description;
        assert Named(a, q);
      }
    }
  }

  lemma HostRenamesNothing(w: World, w': World, e: ProxyEntry, res: Result<ManagedRecord>)
    requires HostDone(w, w', e, res)
    ensures NoRename(w.nas, w'.nas)
  {
    var d := e.description;
    forall r | r in w'.nas.records ensures Named(w.nas, r) {
      if w'.nas.records != w.nas.records {
        DropMembers(w.nas.records, {d});
        DropMembers(w'.nas.records, {d});
        AtMembers(w.nas.records, d);
        AtMembers(w'.nas.records, d);
        if r.description == d {
          assert r in At(w'.nas.records, d);
          var at := At(w.nas.records, d);
          assert at != [] ==> at[0] in at;
        } else {
          assert r in Drop(w'.nas.records, {d});
        }
      }
    }
  }

  // ----------------------------------------------------------------- a pass

  /** The UUID is neither tracked nor that of a record the plan is about. */
  ghost predicate Stranger(nas: Nas, plan: Plan, managed: seq<ManagedRecord>, v: Uuid) {
    && v < nas.next
    && (forall m | m in managed :: m.uuid != v)
    && (forall r | r in nas.records && r.description in Descs(plan) :: r.uuid != v)
  }

  lemma StaysStranger(nas: Nas, nas': Nas, plan: Plan, managed: seq<ManagedRecord>, v: Uuid)
    requires Stranger(nas, plan, managed, v) && NoRename(nas, nas')
    ensures Stranger(nas', plan, managed, v)
  {
    forall r | r in nas'.records && r.description in Descs(plan) ensures r.uuid != v {
      assert Named(nas, r);
    }
  }

  lemma HostLeaves(w: World, plan: Plan, i: nat, managed: seq<ManagedRecord>, v: Uuid)
    requires i < |plan.hosts| && Sound(w.nas) && Stranger(w.nas, plan, managed, v)
    ensures
      var h := SyncHost(w, plan, i, managed);
      CertsOf(h.w.nas.services, v) == CertsOf(w.nas.services, v)
  {
    var d := plan.hosts[i].desc;
    var u := Upsert(w, RuleAt(plan, i));
    UpsertEffect(w, RuleAt(plan, i));
    if u.res.Ok? {
      PrevOfMember(managed, d);
      UpsertedUuid(w.nas, u.w.nas, plan, i, managed, v);
      CertifyLeaves(u.w, plan, plan.hosts[i], PrevOf(managed, d), u.res.value, v);
    }
  }

  lemma UpsertedUuid(nas: Nas, nas': Nas, plan: Plan, i: nat, managed: seq<ManagedRecord>, v: Uuid)
    requires i < |plan.hosts| && Stranger(nas, plan, managed, v)
    requires nas'.records == nas.records || At(nas'.records, plan.hosts[i].desc) == [Stored(nas, Want(plan, i))]
    requires At(nas'.records, plan.hosts[i].desc) != []
    ensures At(nas'.records, plan.hosts[i].desc)[0].uuid != v
  {
    var at := At(nas.records, plan.hosts[i].desc);
    AtMembers(nas.records, plan.hosts[i].desc);
    assert at != [] ==> at[0] in at;
  }

  /** Where the row of a stranger is after some hosts. */
  ghost predicate RowKept(nas: Nas, nas': Nas, v: Uuid) {
    NoRename(nas, nas') && CertsOf(nas'.services, v) == CertsOf(nas.services, v)
  }

  lemma NextLeaves(w: World, plan: Plan, managed: seq<ManagedRecord>, s: Synced, k: nat, v: Uuid)
    requires 0 < k <= |plan.hosts| && Stranger(w.nas, plan, managed, v)
    requires Sound(s.w.nas) && RowKept(w.nas, s.w.nas, v)
    ensures RowKept(w.nas, Advance(s.records, SyncHost(s.w, plan, k - 1, managed)).w.nas, v)
  {
    StaysStranger(w.nas, s.w.nas, plan, managed, v);
    HostKeepsRow(s.w, plan, k - 1, managed, v);
    RowKeptTrans(w.nas, s.w.nas, SyncHost(s.w, plan, k - 1, managed).w.nas, v);
  }

  lemma RowKeptTrans(a: Nas, b: Nas, c: Nas, v: Uuid)
    requires RowKept(a, b, v) && RowKept(b, c, v)
    ensures RowKept(a, c, v)
  {
    NoRenameTrans(a, b, c);
  }

  lemma HostKeepsRow(w: World, plan: Plan, i: nat, managed: seq<ManagedRecord>, v: Uuid)
    requires i < |plan.hosts| && Sound(w.nas) && Stranger(w.nas, plan, managed, v)
    ensures RowKept(w.nas, SyncHost(w, plan, i, managed).w.nas, v)
  {
    HostLeaves(w, plan, i, managed, v);
    SyncHostEffect(w, plan, i, managed);
    HostRenamesNothing(w, SyncHost(w, plan, i, managed).w, Want(plan, i), SyncHost(w, plan, i, managed).res);
  }

  lemma {:induction false} HostsLeave(w: World, plan: Plan, managed: seq<ManagedRecord>, k: nat, v: Uuid)
    requires k <= |plan.hosts| && Sound(w.nas) && WellNamed(plan) && Stranger(w.nas, plan, managed, v)
    ensures RowKept(w.nas, SyncHosts(w, plan, managed, k).w.nas, v)
  {
    if k > 0 {
      HostsLeave(w, plan, managed, k - 1, v);
      SyncHostsEffect(w, plan, managed, k - 1);
      NextLeaves(w, plan, managed, SyncHosts(w, plan, managed, k - 1), k, v);
    }
  }

  lemma SweepLeaves(nas: Nas, gone: set<string>, v: Uuid)
    ensures RowKept(nas, nas.(records := Drop(nas.records, gone)), v)
  {
    DropMembers(nas.records, gone);
  }

  /** A pass on any network, stopped anywhere, leaves the certificate rows of every record that
      it neither tracks nor plans, and does not come to track it. */
  lemma PassLeavesRow(w: World, plan: Plan, status: Status, v: Uuid)
    requires Sound(w.nas) && WellNamed(plan) && Stranger(w.nas, plan, status.managed, v)
    ensures
      var p := RunPlan(w, plan, status);
      && CertsOf(p.w.nas.services, v) == CertsOf(w.nas.services, v)
      && NoRename(w.nas, p.w.nas) && Stranger(p.w.nas, plan, p.status.managed, v)
  {
    var managed := status.managed;
    var gone := SweepEffect(w, managed, Descs(plan), |managed|);
    SweepLeaves(w.nas, gone, v);
    var sweep := Sweep(w, managed, Descs(plan), |managed|);
    var p := RunPlan(w, plan, status);
    if !sweep.stopped {
      StaysStranger(w.nas, sweep.w.nas, plan, managed, v);
      HostsLeave(sweep.w, plan, managed, |plan.hosts|, v);
      NoRenameTrans(w.nas, sweep.w.nas, p.w.nas);
    }
    StaysStranger(w.nas, p.w.nas, plan, managed, v);
    if p.halt == Running {
      var failed := PassEffect(w, plan, status);
      StatusStranger(p.w.nas, plan, managed, p.status.managed, failed, v);
    }
  }

  lemma StatusStranger(nas: Nas, plan: Plan, managed: seq<ManagedRecord>, managed': seq<ManagedRecord>,
      failed: seq<ManagedRecord>, v: Uuid)
    requires Stranger(nas, plan, managed, v) && Sublist(failed, managed)
    requires
      var n := |plan.hosts|;
      && |managed'| == n + |failed| && managed'[n..] == failed && Tracks(nas, plan, managed'[..n], n)
    ensures Stranger(nas, plan, managed', v)
  {
    var n := |plan.hosts|;
    SublistMembers(failed, managed);
    forall m | m in managed' ensures m.uuid != v {
      var x :| 0 <= x < |managed'| && managed'[x] == m;
      if x < n {
        assert managed'[..n][x] == m;
        var at := At(nas.records, plan.hosts[x].desc);
        AtMembers(nas.records, plan.hosts[x].desc);
        assert at[0] in at;
      } else {
        assert managed'[n..][x - n] in failed;
      }
    }
  }

  /** In terms of a record: one that is not of the rule and whose UUID the rule does not track. */
  lemma PassLeavesRecord(w: World, plan: Plan, status: Status, r: ProxyEntry)
    requires Sound(w.nas) && WellNamed(plan) && r in w.nas.records
    requires r.description !in Descs(plan) && forall m | m in status.managed :: m.uuid != r.uuid
    ensures CertsOf(RunPlan(w, plan, status).w.nas.services, r.uuid) == CertsOf(w.nas.services, r.uuid)
  {
    RecordIsStranger(w.nas, plan, status.managed, r);
    PassLeavesRow(w, plan, status, r.uuid);
  }

  lemma RecordIsStranger(nas: Nas, plan: Plan, managed: seq<ManagedRecord>, r: ProxyEntry)
    requires Sound(nas) && r in nas.records && r.description !in Descs(plan) && forall m | m in managed ::
        m.uuid != r.uuid
    ensures Stranger(nas, plan, managed, r.uuid)
  {
    forall q | q in nas.records && q.description in Descs(plan) ensures q.uuid != r.uuid {
      UuidsDiffer(nas.records, q, r);
    }
  }
}
