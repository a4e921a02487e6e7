/** The part of a pass that talks to DSM about records: deleting stale records, then
    upserting one record per host and keeping its certificate. */
module Sync {
  import opened Util
  import opened Dsm
  import opened Client
  import opened Proxy
  import opened CertificateChoice
  import opened CertificateService
  import opened Rules

  /** Stale records are deleted first; the ones that fail are kept for later. */
  datatype Swept = Swept(w: World, failed: seq<ManagedRecord>, stopped: bool)

  function SweepStep(s: Swept, m: ManagedRecord, desired: set<string>): Swept {
    if s.stopped || m.description in desired then s
    else
      var r := DeleteProxyRecord(s.w, m.description);
      match r.res
      case Ok(_) => Swept(r.w, s.failed, false)
      case Err(_) => Swept(r.w, s.failed + [m], false)
      case Stopped => Swept(r.w, s.failed, true)
  }

  function Sweep(w: World, managed: seq<ManagedRecord>, desired: set<string>, k: nat): Swept
    requires k <= |managed|
  {
    if k == 0 then Swept(w, [], false)
    else SweepStep(Sweep(w, managed, desired, k - 1), managed[k - 1], desired)
  }

  /** The record last tracked under a description. */
  function PrevOf(managed: seq<ManagedRecord>, d: string): Option<ManagedRecord> {
    if managed == [] then None
    else if managed[|managed| - 1].description == d then Some(managed[|managed| - 1])
    else PrevOf(managed[..|managed| - 1], d)
  }

  lemma {:induction false} PrevOfMember(managed: seq<ManagedRecord>, d: string)
    ensures
      var prev := PrevOf(managed, d);
      && (prev.Some? ==> prev.value in managed && prev.value.description == d)
      && (prev.None? ==> forall m | m in managed :: m.description != d)
  {
    if managed != [] {
      var n := |managed| - 1;
      PrevOfMember(managed[..n], d);
      assert managed == managed[..n] + [managed[n]];
    }
  }

  /** Drops the certificate row of a record that came back under a new UUID; returns
      the certificate to replace. */
  function Retire(w: World, prev: Option<ManagedRecord>, uuid: Uuid, host: string): Did<string> {
    match prev
    case None => Did(w, Ok(""))
    case Some(m) =>
      if m.uuid != NO_UUID && m.uuid != uuid then
        var u := UnassignCertificate(w, m.uuid, host);
        Did(u.w, if u.res.Stopped? then Stopped else Ok(""))
      else Did(w, Ok(m.certID))
  }

  function CarriedCert(prev: Option<ManagedRecord>): string {
    if prev.Some? then prev.value.certID else ""
  }

  function Certify(w: World, plan: Plan, h: HostEntry, prev: Option<ManagedRecord>, up: Upserted): Did<ManagedRecord> {
    var kept := Retire(w, prev, up.uuid, h.host);
    if !kept.res.Ok? then Did(kept.w, Stopped)
    else if plan.assignCert && up.written && up.uuid != NO_UUID then
      var a := AssignCertificate(kept.w, up.uuid, h.host, kept.res.value);
      match a.res
      case Ok(id) => Did(a.w, Ok(ManagedRecord(h.desc, up.uuid, h.host, id)))
      case Err(_) => Did(a.w, Ok(ManagedRecord(h.desc, up.uuid, h.host, "")))
      case Stopped => Did(a.w, Stopped)
    else Did(kept.w, Ok(ManagedRecord(h.desc, up.uuid, h.host, CarriedCert(prev))))
  }

  function SyncHost(w: World, plan: Plan, i: nat, managed: seq<ManagedRecord>): Did<ManagedRecord>
    requires i < |plan.hosts|
  {
    var u := Upsert(w, RuleAt(plan, i));
    match u.res
    case Err(f) => Did(u.w, Err(f))
    case Stopped => Did(u.w, Stopped)
    case Ok(up) => Certify(u.w, plan, plan.hosts[i], PrevOf(managed, plan.hosts[i].desc), up)
  }

  datatype Halt = Running | Aborted | Crashed

  datatype Synced = Synced(w: World, records: seq<ManagedRecord>, halt: Halt)

  function Advance(records: seq<ManagedRecord>, h: Did<ManagedRecord>): Synced {
    match h.res
    case Ok(m) => Synced(h.w, records + [m], Running)
    case Err(_) => Synced(h.w, records, Aborted)
    case Stopped => Synced(h.w, records, Crashed)
  }

  function SyncHosts(w: World, plan: Plan, managed: seq<ManagedRecord>, k: nat): Synced
    requires k <= |plan.hosts|
  {
    if k == 0 then Synced(w, [], Running)
    else
      var s := SyncHosts(w, plan, managed, k - 1);
      if s.halt != Running then s else Advance(s.records, SyncHost(s.w, plan, k - 1, managed))
  }

  /** A host list left early is done. */
  lemma {:induction false} HaltStays(w: World, plan: Plan, managed: seq<ManagedRecord>, k: nat, n: nat)
    requires k <= n <= |plan.hosts| && SyncHosts(w, plan, managed, k).halt != Running
    ensures SyncHosts(w, plan, managed, n) == SyncHosts(w, plan, managed, k)
  {
    if k < n {
      HaltStays(w, plan, managed, k, n - 1);
    }
  }

  /** How a pass ended, the status it computed, and whether it writes that status. */
  datatype Pass = Pass(w: World, status: Status, write: bool, halt: Halt)

  function RunPlan(w: World, plan: Plan, status: Status): Pass {
    var managed := status.managed;
    var sweep := Sweep(w, managed, Descs(plan), |managed|);
    if sweep.stopped then Pass(sweep.w, status, false, Crashed)
    else
      var s := SyncHosts(sweep.w, plan, managed, |plan.hosts|);
      if s.halt != Running then Pass(s.w, status, false, s.halt)
      else if sweep.failed != [] then
        var all := s.records + sweep.failed;
        Pass(s.w, status.(managed := all, count := |all|), true, Running)
      else
        var changed := status.resolvedHost != plan.destHost || status.resolvedPort != plan.destPort
          || !status.synced || status.managed != s.records;
        if changed then
          Pass(s.w, Status(s.records, |s.records|, true, plan.destHost, plan.destPort), true, Running)
        else Pass(s.w, status, false, Running)
  }

  /** The descriptions a rule tracks or wants. */
  function Mine(status: Status, plan: Plan): set<string> {
    Descs(plan) + set m | m in status.managed :: m.description
  }

  // ------------------------------------------------------- the stale sweep

  /** The stale descriptions among the first `k` tracked records. */
  function Stale(managed: seq<ManagedRecord>, desired: set<string>, k: nat): (r: set<string>)
    requires k <= |managed|
  {
    set i | 0 <= i < k && managed[i].description !in desired :: managed[i].description
  }

  ghost predicate SweepExchange(rs: seq<ProxyEntry>, stale: set<string>, x: Exchange) {
    && (IsRead(x.req) || x.req.Delete?)
    && exists gone: set<string> :: gone <= stale && x.after == Drop(rs, gone)
  }

  /** `a` is `b` with some entries left out, in the same order. */
  predicate Sublist<T(==)>(a: seq<T>, b: seq<T>) {
    || a == []
    || (b != [] &&
        ((a[|a| - 1] == b[|b| - 1] && Sublist(a[..|a| - 1], b[..|b| - 1])) || Sublist(a, b[..|b| - 1])))
  }

  lemma {:induction false} SublistMembers<T>(a: seq<T>, b: seq<T>)
    requires Sublist(a, b)
    ensures forall x | x in a :: x in b
  {
    if a != [] {
      var m, n := |a| - 1, |b| - 1;
      assert a == a[..m] + [a[m]] && b == b[..n] + [b[n]];
      if a[m] == b[n] && Sublist(a[..m], b[..n]) {
        SublistMembers(a[..m], b[..n]);
      } else {
        SublistMembers(a, b[..n]);
      }
    }
  }

  /** What a sweep that stands at `s` has done to the first `k` tracked records. */
  ghost predicate SweptTo(w: World, managed: seq<ManagedRecord>, desired: set<string>, k: nat, s: Swept,
      gone: set<string>)
    requires k <= |managed|
  {
    && gone <= Stale(managed, desired, k)
    && s.w.nas == w.nas.(records := Drop(w.nas.records, gone))
    && Sound(s.w.nas)
    && (forall m | m in s.failed :: m.description !in desired)
    && (!s.stopped ==> forall i | 0 <= i < k && managed[i].description !in desired ::
          managed[i] in s.failed || managed[i].description in gone)
    && LogGrows(w.log, s.w.log, x => SweepExchange(w.nas.records, Stale(managed, desired, k), x))
  }

  ghost predicate SweptBy(w: World, managed: seq<ManagedRecord>, desired: set<string>, k: nat, gone: set<string>)
    requires k <= |managed|
  {
    SweptTo(w, managed, desired, k, Sweep(w, managed, desired, k), gone)
  }

  lemma SweepWider(w: World, s: Swept, before: set<string>, after: set<string>)
    requires before <= after
    requires LogGrows(w.log, s.w.log, x => SweepExchange(w.nas.records, before, x))
    ensures LogGrows(w.log, s.w.log, x => SweepExchange(w.nas.records, after, x))
  {
    LogWeaken(w.log, s.w.log, x => SweepExchange(w.nas.records, before, x), x => SweepExchange(w.nas.records, after,
        x));
  }

  /** One more delete, of a stale description. */
  lemma SweepDeletes(w: World, s: Swept, d: string, stale: set<string>, gone: set<string>) returns (more: set<string>)
    requires Sound(s.w.nas) && gone <= stale && d in stale
    requires s.w.nas == w.nas.(records := Drop(w.nas.records, gone))
    requires LogGrows(w.log, s.w.log, x => SweepExchange(w.nas.records, stale, x))
    ensures
      var r := DeleteProxyRecord(s.w, d);
      && gone <= more <= gone + {d} && (r.res.Ok? ==> d in more)
      && r.w.nas == w.nas.(records := Drop(w.nas.records, more))
      && Sound(r.w.nas)
      && LogGrows(w.log, r.w.log, x => SweepExchange(w.nas.records, stale, x))
  {
    DeleteEffect(s.w, d);
    DropDrop(w.nas.records, gone, {d});
    var r := DeleteProxyRecord(s.w, d);
    more := if r.w.nas != s.w.nas || r.res.Ok? then gone + {d} else gone;
    var p := x => SweepExchange(w.nas.records, stale, x);
    LogWeaken(s.w.log, r.w.log, x => DeleteStep(s.w.nas.records, r.w.nas.records, x), p);
    LogGrowsTrans(w.log, s.w.log, r.w.log, p);
  }

  lemma SweepStepEffect(w: World, managed: seq<ManagedRecord>, desired: set<string>, k: nat, s: Swept,
      gone: set<string>)
    returns (more: set<string>)
    requires 0 < k <= |managed| && SweptTo(w, managed, desired, k - 1, s, gone)
    ensures SweptTo(w, managed, desired, k, SweepStep(s, managed[k - 1], desired), more)
  {
    var d := managed[k - 1].description;
    SweepWider(w, s, Stale(managed, desired, k - 1), Stale(managed, desired, k));
    more := gone;
    if !s.stopped && d !in desired {
      more := SweepDeletes(w, s, d, Stale(managed, desired, k), gone);
    }
  }

  lemma {:induction false} SweepEffect(w: World, managed: seq<ManagedRecord>, desired: set<string>, k: nat)
    returns (gone: set<string>)
    requires k <= |managed| && Sound(w.nas)
    ensures SweptBy(w, managed, desired, k, gone)
  {
    if k == 0 {
      gone := {};
      DropNothing(w.nas.records, gone);
    } else {
      var before := SweepEffect(w, managed, desired, k - 1);
      gone := SweepStepEffect(w, managed, desired, k, Sweep(w, managed, desired, k - 1), before);
    }
  }

  /** The failures are tracked records in their old order. */
  lemma {:induction false} SweepFailures(w: World, managed: seq<ManagedRecord>, desired: set<string>, k: nat)
    requires k <= |managed|
    ensures Sublist(Sweep(w, managed, desired, k).failed, managed[..k])
  {
    if k > 0 {
      SweepFailures(w, managed, desired, k - 1);
      SublistNext(Sweep(w, managed, desired, k - 1).failed, managed, k);
    }
  }

  lemma SublistNext(part: seq<ManagedRecord>, managed: seq<ManagedRecord>, k: nat)
    requires 0 < k <= |managed| && Sublist(part, managed[..k - 1])
    ensures Sublist(part, managed[..k]) && Sublist(part + [managed[k - 1]], managed[..k])
  {
    assert managed[..k][..k - 1] == managed[..k - 1];
    assert (part + [managed[k - 1]])[..|part|] == part;
  }

  // -------------------------------------------------------- one host, any network

  ghost predicate HostExchange(rs: seq<ProxyEntry>, rs': seq<ProxyEntry>, d: string, x: Exchange) {
    (IsRead(x.req) || WritesFor(x.req, d) || x.req.SetCert?) && (x.after == rs || x.after == rs')
  }

  /** The tables a pass only reads. */
  ghost predicate SameTables(nas: Nas, nas': Nas) {
    && nas'.certificates == nas.certificates
    && nas'.aclProfiles == nas.aclProfiles
    && nas'.strict == nas.strict
    && nas.next <= nas'.next
  }

  lemma CertifyEffect(w: World, plan: Plan, h: HostEntry, prev: Option<ManagedRecord>, up: Upserted)
    ensures
      var c := Certify(w, plan, h, prev, up);
      && OnlyCerts(w, c.w)
      && !c.res.Err?
      && (c.res.Ok? ==>
            && c.res.value.description == h.desc
            && c.res.value.uuid == up.uuid
            && c.res.value.sourceHost == h.host)
  {
    var kept := Retire(w, prev, up.uuid, h.host);
    assert OnlyCerts(w, w);
    if prev.Some? {
      UnassignEffect(w, prev.value.uuid, h.host);
    }
    assert OnlyCerts(w, kept.w);
    if kept.res.Ok? {
      AssignEffect(kept.w, up.uuid, h.host, kept.res.value);
      OnlyCertsTrans(w, kept.w, AssignCertificate(kept.w, up.uuid, h.host, kept.res.value).w);
    }
  }

  /** The certificate noted for a host, on any network. If the record was written and rules
      want certificates, it is the one chosen and DSM has it, or none was assigned and none is
      noted; otherwise it is the one tracked before. */
  lemma NotedCertificate(w: World, plan: Plan, h: HostEntry, prev: Option<ManagedRecord>, up: Upserted)
    ensures
      var c := Certify(w, plan, h, prev, up);
      c.res.Ok? ==>
        var id := c.res.value.certID;
        if plan.assignCert && up.written && up.uuid != 0 then
          id == "" || (id == BestCert(w.nas.certificates, h.host).0 && ServiceEntry(up.uuid, id) in c.w.nas.services)
        else id == if prev.Some? then prev.value.certID else ""
  {
    var kept := Retire(w, prev, up.uuid, h.host);
    if prev.Some? {
      UnassignEffect(w, prev.value.uuid, h.host);
    }
    if kept.res.Ok? {
      ReportedIsThere(kept.w, up.uuid, h.host, kept.res.value);
    }
  }

  /** An assignment that DSM refuses is not fatal, and leaves nothing noted. */
  lemma RefusedCertificate(w: World, plan: Plan, h: HostEntry, up: Upserted, code: int)
    requires w.script == [HEALTHY, HEALTHY.(fate := Refused(code))] && code != 119
    requires plan.assignCert && up.written && up.uuid != 0
    ensures
      var c := Certify(w, plan, h, None, up);
      c.w.nas == w.nas && c.res == Ok(ManagedRecord(h.desc, up.uuid, h.host, ""))
  {
    PostFirst(w, ListCerts);
    var l := Post(w, ListCerts);
    PostFirst(l.w, SetCert(up.uuid, h.host, "", BestCert(w.nas.certificates, h.host).0));
  }

  /** What is sent for a record that came back under a new UUID: its old row is to go. */
  lemma RetireSends(w: World, prev: Option<ManagedRecord>, uuid: Uuid, host: string)
    requires w.script == []
    ensures
      var k := Retire(w, prev, uuid, host);
      if prev.Some? && prev.value.uuid != 0 && prev.value.uuid != uuid then
        k.res == Ok("") && k.w.log == w.log + [Exchange(SetCert(prev.value.uuid, host, "", ""), w.nas.records)]
      else k == Did(w, Ok(if prev.Some? then prev.value.certID else ""))
  {
    if prev.Some? {
      PostHealthy(w, SetCert(prev.value.uuid, host, "", ""));
    }
  }

  /** One host: at most its own record is written, and a tracked result is in DSM
      with the UUID it reports and the fields the plan wants. */
  ghost predicate HostDone(w: World, w': World, e: ProxyEntry, res: Result<ManagedRecord>) {
    var at' := At(w'.nas.records, e.description);
    && Sound(w'.nas)
    && SameTables(w.nas, w'.nas)
    && Drop(w'.nas.records, {e.description}) == Drop(w.nas.records, {e.description})
    && (w'.nas.records == w.nas.records || at' == [Stored(w.nas, e)])
    && LogGrows(w.log, w'.log, x => HostExchange(w.nas.records, w'.nas.records, e.description, x))
    && (res.Ok? ==>
          && |at'| == 1 && at'[0].uuid == res.value.uuid && ProxyRecordEqual(at'[0], e)
          && res.value.description == e.description && res.value.sourceHost == e.frontend.fqdn)
  }

  lemma SyncHostEffect(w: World, plan: Plan, i: nat, managed: seq<ManagedRecord>)
    requires i < |plan.hosts| && Sound(w.nas)
    ensures
      var h := SyncHost(w, plan, i, managed);
      HostDone(w, h.w, Want(plan, i), h.res)
  {
    var e := Want(plan, i);
    var u := Upsert(w, RuleAt(plan, i));
    var h := SyncHost(w, plan, i, managed);
    UpsertEffect(w, RuleAt(plan, i));
    var p := x => HostExchange(w.nas.records, h.w.nas.records, e.description, x);
    if u.res.Ok? {
      CertifyEffect(u.w, plan, plan.hosts[i], PrevOf(managed, plan.hosts[i].desc), u.res.value);
      LogWeaken(w.log, u.w.log, x => UpsertStep(w.nas.records, u.w.nas.records, e.description, x), p);
      LogWeaken(u.w.log, h.w.log, x => CertStep(u.w.nas.records, x), p);
      LogGrowsTrans(w.log, u.w.log, h.w.log, p);
    } else {
      LogWeaken(w.log, u.w.log, x => UpsertStep(w.nas.records, u.w.nas.records, e.description, x), p);
    }
  }

  // ------------------------------------------------------- all hosts, any network

  ghost predicate PlanExchange(descs: set<string>, x: Exchange) {
    || IsRead(x.req)
    || x.req.SetCert?
    || ((x.req.Create? || x.req.Update?) && x.req.entry.description in descs)
  }

  /** The first `k` hosts are in DSM as planned, tracked in order. */
  ghost predicate Tracks(nas: Nas, plan: Plan, records: seq<ManagedRecord>, k: nat)
    requires k <= |plan.hosts|
  {
    && |records| == k
    && forall i | 0 <= i < k ::
         var at := At(nas.records, plan.hosts[i].desc);
         && records[i].description == plan.hosts[i].desc
         && records[i].sourceHost == plan.hosts[i].host
         && |at| == 1 && at[0].uuid == records[i].uuid && ProxyRecordEqual(at[0], Want(plan, i))
  }

  ghost predicate SyncedBy(w: World, plan: Plan, s: Synced, k: nat)
    requires k <= |plan.hosts|
  {
    && Sound(s.w.nas)
    && SameTables(w.nas, s.w.nas)
    && Drop(s.w.nas.records, DescsUpTo(plan, k)) == Drop(w.nas.records, DescsUpTo(plan, k))
    && LogGrows(w.log, s.w.log, x => PlanExchange(DescsUpTo(plan, k), x))
    && (s.halt == Running ==> Tracks(s.w.nas, plan, s.records, k))
  }

  /** Whatever the network does, only planned descriptions are written, and a pass
      that reaches the end tracks every host as it is in DSM. */
  lemma {:induction false} SyncHostsEffect(w: World, plan: Plan, managed: seq<ManagedRecord>, k: nat)
    requires k <= |plan.hosts| && Sound(w.nas) && WellNamed(plan)
    ensures SyncedBy(w, plan, SyncHosts(w, plan, managed, k), k)
  {
    if k > 0 {
      SyncHostsEffect(w, plan, managed, k - 1);
      var s := SyncHosts(w, plan, managed, k - 1);
      WidenSynced(w, plan, s, k);
      if s.halt == Running {
        SyncHostEffect(s.w, plan, k - 1, managed);
        SyncedStep(w, plan, s, SyncHost(s.w, plan, k - 1, managed), k);
      }
    }
  }

  lemma WidenSynced(w: World, plan: Plan, s: Synced, k: nat)
    requires 0 < k <= |plan.hosts| && SyncedBy(w, plan, s, k - 1)
    ensures Drop(s.w.nas.records, DescsUpTo(plan, k)) == Drop(w.nas.records, DescsUpTo(plan, k))
    ensures LogGrows(w.log, s.w.log, x => PlanExchange(DescsUpTo(plan, k), x))
  {
    DropWider(s.w.nas.records, w.nas.records, DescsUpTo(plan, k - 1), DescsUpTo(plan, k));
    LogWeaken(w.log, s.w.log, x => PlanExchange(DescsUpTo(plan, k - 1), x), x => PlanExchange(DescsUpTo(plan, k), x));
  }

  lemma SyncedStep(w: World, plan: Plan, s: Synced, h: Did<ManagedRecord>, k: nat)
    requires 0 < k <= |plan.hosts| && WellNamed(plan)
    requires SyncedBy(w, plan, s, k - 1) && s.halt == Running
    requires HostDone(s.w, h.w, Want(plan, k - 1), h.res)
    ensures SyncedBy(w, plan, Advance(s.records, h), k)
  {
    var e := Want(plan, k - 1);
    var p := x => PlanExchange(DescsUpTo(plan, k), x);
    WidenSynced(w, plan, s, k);
    LogWeaken(s.w.log, h.w.log, x => HostExchange(s.w.nas.records, h.w.nas.records, e.description, x), p);
    LogGrowsTrans(w.log, s.w.log, h.w.log, p);
    DropWider(h.w.nas.records, s.w.nas.records, {e.description}, DescsUpTo(plan, k));
    if h.res.Ok? {
      TracksStep(s.w.nas, h.w.nas, plan, s.records, h.res.value, k);
    }
  }

  lemma TracksStep(nas: Nas, nas': Nas, plan: Plan, records: seq<ManagedRecord>, m: ManagedRecord, k: nat)
    requires 0 < k <= |plan.hosts| && WellNamed(plan)
    requires Tracks(nas, plan, records, k - 1)
    requires Drop(nas'.records, {plan.hosts[k - 1].desc}) == Drop(nas.records, {plan.hosts[k - 1].desc})
    requires
      var e := Want(plan, k - 1);
      var at' := At(nas'.records, e.description);
      && |at'| == 1 && at'[0].uuid == m.uuid && ProxyRecordEqual(at'[0], e)
      && m.description == e.description && m.sourceHost == e.frontend.fqdn
      && (At(nas.records, e.description) != [] ==> At(nas.records, e.description)[0].uuid == m.uuid)
    ensures Tracks(nas', plan, records + [m], k)
  {
    var d := plan.hosts[k - 1].desc;
    forall i | 0 <= i < k
      ensures
        var at := At(nas'.records, plan.hosts[i].desc);
        var rec := (records + [m])[i];
        && rec.description == plan.hosts[i].desc && rec.sourceHost == plan.hosts[i].host
        && |at| == 1 && at[0].uuid == rec.uuid && ProxyRecordEqual(at[0], Want(plan, i))
    {
      if plan.hosts[i].desc == d {
        assert plan.hosts[i] == plan.hosts[k - 1];
      } else {
        AtFrame(nas.records, nas'.records, {d}, plan.hosts[i].desc);
      }
    }
  }
}
