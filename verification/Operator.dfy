/** The rule controller as it runs: loops over tracked records and hosts, an index, a
    cache and the stored rule, each changed in place and each tied to what the passes
    are specified to do. */
module Operator {
  import opened Util
  import opened Dsm
  import opened Client
  import opened Proxy
  import opened CertificateService
  import opened Rules
  import opened Backend
  import opened Acl
  import opened Sync
  import opened Finalizer
  import opened Reconciler

  /** The index finds what was last tracked under a description. */
  ghost predicate Indexes(index: map<string, ManagedRecord>, managed: seq<ManagedRecord>) {
    forall d :: PrevOf(managed, d) == if d in index then Some(index[d]) else None
  }

  /** The index finds the host last tracked for a UUID. */
  ghost predicate Hosts(hosts: map<Uuid, string>, managed: seq<ManagedRecord>) {
    forall u: Uuid :: HostOf(managed, u) == if u in hosts then hosts[u] else ""
  }

  lemma NextHost(w: World, plan: Plan, managed: seq<ManagedRecord>, s: Synced, k: nat)
    requires k < |plan.hosts| && s == SyncHosts(w, plan, managed, k) && s.halt == Running
    ensures SyncHosts(w, plan, managed, k + 1) == Advance(s.records, SyncHost(s.w, plan, k, managed))
  {
  }

  lemma NextSweep(w: World, managed: seq<ManagedRecord>, desired: set<string>, s: Swept, k: nat)
    requires k < |managed| && Sweep(w, managed, desired, k) == s
    ensures Sweep(w, managed, desired, k + 1) == SweepStep(s, managed[k], desired)
  {
  }

  // --------------------------------------------- a loop left early is a loop done

  lemma {:induction false} SweepStays(w: World, managed: seq<ManagedRecord>, desired: set<string>, k: nat, n: nat)
    requires k <= n <= |managed| && Sweep(w, managed, desired, k).stopped
    ensures Sweep(w, managed, desired, n) == Sweep(w, managed, desired, k)
  {
    if k < n {
      SweepStays(w, managed, desired, k, n - 1);
    }
  }

  lemma {:induction false} EraseStays(w: World, managed: seq<ManagedRecord>, descs: seq<string>, k: nat, n: nat)
    requires k <= n <= |descs| && !Erase(w, managed, descs, k).res.Ok?
    ensures Erase(w, managed, descs, n) == Erase(w, managed, descs, k)
  {
    if k < n {
      EraseStays(w, managed, descs, k, n - 1);
    }
  }

  /** The erasure of one more record: what it leads to, or where it ends. */
  ghost predicate ErasesTo(w: World, managed: seq<ManagedRecord>, descs: seq<string>, k: nat, e: Did<()>)
    requires k < |descs|
  {
    if e.res.Ok? then Erase(w, managed, descs, k + 1) == e else Erase(w, managed, descs, |descs|) == e
  }

  lemma NextErase(w: World, managed: seq<ManagedRecord>, descs: seq<string>, before: World, e: Did<()>, k: nat)
    requires k < |descs| && Erase(w, managed, descs, k) == Did(before, Ok(()))
    requires e == EraseOne(before, managed, descs[k])
    ensures Erase(w, managed, descs, k + 1) == e
  {
  }

  lemma EraseEnds(w: World, managed: seq<ManagedRecord>, descs: seq<string>, e: Did<()>, k: nat)
    requires k < |descs| && Erase(w, managed, descs, k + 1) == e
    ensures ErasesTo(w, managed, descs, k, e)
  {
    if !e.res.Ok? {
      EraseStays(w, managed, descs, k + 1, |descs|);
    }
  }

  lemma ErasesNext(w: World, managed: seq<ManagedRecord>, descs: seq<string>, before: World, e: Did<()>, k: nat)
    requires k < |descs| && Erase(w, managed, descs, k) == Did(before, Ok(()))
    requires e == EraseOne(before, managed, descs[k])
    ensures ErasesTo(w, managed, descs, k, e)
  {
    NextErase(w, managed, descs, before, e, k);
    EraseEnds(w, managed, descs, e, k);
  }

  /** The rule as the API server stores it. A write either lands or is rejected. */
  class StoredRule {
    var rule: Rule

    constructor (rule: Rule)
      ensures this.rule == rule
    {
      this.rule := rule;
    }

    method Write(changed: Rule, lands: bool)
      modifies this
      ensures rule == if lands then changed else old(rule)
    {
      if lands {
        rule := changed;
      }
    }
  }

  class RuleReconciler {
    const client: Client
    const cfg: Config
    var aclCache: map<string, string>
    var aclCacheAt: int

    constructor (client: Client, cfg: Config)
      ensures this.client == client && this.cfg == cfg && Cache() == AclCache(map[], 0)
    {
      this.client, this.cfg := client, cfg;
      aclCache, aclCacheAt := map[], 0;
    }

    function Cache(): AclCache
      reads this
    {
      AclCache(aclCache, aclCacheAt)
    }

    function Snapshot(): World
      reads client, client.net
    {
      client.Snapshot()
    }

    // ------------------------------------------------------------ preparation

    method ResolveACL(name: string) returns (res: Result<string>)
      modifies this, client, client.net
      ensures Resolved(Snapshot(), Cache(), res) == ResolveACLProfile(old(Snapshot()), old(Cache()), name)
    {
      if client.net.now - aclCacheAt < ACL_TTL && name in aclCache {
        return Ok(aclCache[name]);
      }
      res := DoGetACLProfileID(client, name);
      if res.Ok? {
        aclCache := aclCache[name := res.value];
        aclCacheAt := client.net.now;
      }
    }

    method FindBackend(cluster: Cluster, rule: Rule) returns (r: Option<(string, int)>)
      ensures r == ResolveBackend(cluster, rule)
    {
      var host, port := rule.spec.destinationHost, rule.spec.destinationPort;
      if host == "" || port == 0 {
        var d := DoDiscover(cluster, rule);
        if d.DiscoveryFailed? {
          return None;
        }
        if host == "" {
          host := d.host;
        }
        if port == 0 {
          port := d.port;
        }
      }
      r := if host == "" || port == 0 then None else Some((host, port));
    }

    /** One entry per host, the primary first. */
    method ListHosts(base: string, primary: string, additional: seq<string>) returns (hosts: seq<HostEntry>)
      ensures hosts == HostsOf(base, primary, additional)
    {
      hosts := [HostEntry(base, primary)];
      for i := 0 to |additional|
        invariant |hosts| == i + 1 && hosts[0] == HostEntry(base, primary)
        invariant forall j | 0 <= j < i :: hosts[j + 1] == HostEntry(base + "/" + additional[j], additional[j])
      {
        hosts := hosts + [HostEntry(base + "/" + additional[i], additional[i])];
      }
    }

    method DoPrepare(cluster: Cluster, rule: Rule) returns (result: Preparation)
      modifies this, client, client.net
      ensures Prepared(Snapshot(), Cache(), result) == Prepare(cfg, cluster, old(Cache()), old(Snapshot()), rule)
    {
      var backend := FindBackend(cluster, rule);
      if backend.None? {
        return Unready;
      }
      var profile := if rule.spec.aclProfile == "" then cfg.defaultACLProfile else rule.spec.aclProfile;
      var aclID := "";
      if profile != "" {
        var acl := ResolveACL(profile);
        if !acl.Ok? {
          return if acl.Stopped? then CrashedEarly else Unready;
        }
        aclID := acl.value;
      }
      var primary := DoDeriveSourceHost(cluster, cfg.defaultDomain, rule);
      if primary.None? {
        return Unready;
      }
      var (host, port) := backend.value;
      var hosts := ListHosts(DescriptionFor(rule), primary.value, rule.spec.additionalSourceHosts);
      result := Planned(Plan(
        BaseRule(rule.spec, host, port, aclID),
        hosts,
        rule.spec.assignCertificate.None? || rule.spec.assignCertificate.value,
        host,
        port));
    }

    // --------------------------------------------------------------- the pass

    method CollectDescriptions(plan: Plan) returns (desired: set<string>)
      ensures desired == Descs(plan)
    {
      desired := {};
      for i := 0 to |plan.hosts|
        invariant desired == DescsUpTo(plan, i)
      {
        desired := desired + {plan.hosts[i].desc};
      }
    }

    /** Deletes one tracked record if it is stale; a failure is kept for later. */
    method SweepOne(m: ManagedRecord, desired: set<string>, failed: seq<ManagedRecord>)
      returns (failed': seq<ManagedRecord>, stopped: bool)
      modifies client, client.net
      ensures Swept(Snapshot(), failed', stopped) == SweepStep(Swept(old(Snapshot()), failed, false), m, desired)
    {
      failed', stopped := failed, false;
      if m.description !in desired {
        var res := DoDeleteProxyRecord(client, m.description);
        if res.Err? {
          failed' := failed + [m];
        }
        stopped := res.Stopped?;
      }
    }

    method SweepStale(managed: seq<ManagedRecord>, desired: set<string>)
      returns (failed: seq<ManagedRecord>, stopped: bool)
      modifies client, client.net
      ensures Swept(Snapshot(), failed, stopped) == Sweep(old(Snapshot()), managed, desired, |managed|)
    {
      ghost var w := Snapshot();
      failed, stopped := [], false;
      for k := 0 to |managed|
        invariant !stopped && Swept(Snapshot(), failed, stopped) == Sweep(w, managed, desired, k)
      {
        NextSweep(w, managed, desired, Swept(Snapshot(), failed, stopped), k);
        failed, stopped := SweepOne(managed[k], desired, failed);
        if stopped {
          SweepStays(w, managed, desired, k + 1, |managed|);
          return;
        }
      }
    }

    /** The index of the tracked records; a later entry replaces an earlier one. */
    method IndexByDescription(managed: seq<ManagedRecord>) returns (index: map<string, ManagedRecord>)
      ensures Indexes(index, managed)
    {
      index := map[];
      for k := 0 to |managed|
        invariant Indexes(index, managed[..k])
      {
        assert managed[..k + 1][..k] == managed[..k];
        index := index[managed[k].description := managed[k]];
      }
      assert managed[..|managed|] == managed;
    }

    /** The certificate of one host that has just been upserted. */
    method CertifyHost(plan: Plan, h: HostEntry, prev: Option<ManagedRecord>, up: Upserted)
      returns (res: Result<ManagedRecord>)
      modifies client, client.net
      ensures Did(Snapshot(), res) == Certify(old(Snapshot()), plan, h, prev, up)
    {
      var prevCertID := "";
      if prev.Some? {
        if prev.value.uuid != NO_UUID && prev.value.uuid != up.uuid {
          var gone := DoUnassignCertificate(client, prev.value.uuid, h.host);
          if gone.Stopped? {
            return Stopped;
          }
        } else {
          prevCertID := prev.value.certID;
        }
      }
      var certID := "";
      if plan.assignCert && up.written && up.uuid != NO_UUID {
        var given := DoAssignCertificate(client, up.uuid, h.host, prevCertID);
        match given
        case Ok(id) => certID := id;
        case Err(_) =>
        case Stopped => return Stopped;
      } else if prev.Some? {
        certID := prev.value.certID;
      }
      res := Ok(ManagedRecord(h.desc, up.uuid, h.host, certID));
    }

    method UpsertHost(plan: Plan, k: nat, index: map<string, ManagedRecord>, ghost managed: seq<ManagedRecord>)
      returns (res: Result<ManagedRecord>)
      requires k < |plan.hosts|
      requires Indexes(index, managed)
      modifies client, client.net
      ensures Did(Snapshot(), res) == SyncHost(old(Snapshot()), plan, k, managed)
    {
      var h := plan.hosts[k];
      var up := DoUpsert(client, plan.base.(description := h.desc, sourceHost := h.host));
      match up
      case Err(f) => res := Err(f);
      case Stopped => res := Stopped;
      case Ok(u) =>
        res := CertifyHost(plan, h, if h.desc in index then Some(index[h.desc]) else None, u);
    }

    method UpsertHosts(plan: Plan, managed: seq<ManagedRecord>)
      returns (records: seq<ManagedRecord>, halt: Halt)
      modifies client, client.net
      ensures Synced(Snapshot(), records, halt) == SyncHosts(old(Snapshot()), plan, managed, |plan.hosts|)
    {
      ghost var w := Snapshot();
      var index := IndexByDescription(managed);
      records, halt := [], Running;
      for k := 0 to |plan.hosts|
        invariant halt == Running && Synced(Snapshot(), records, halt) == SyncHosts(w, plan, managed, k)
      {
        ghost var s := Synced(Snapshot(), records, halt);
        var res := UpsertHost(plan, k, index, managed);
        NextHost(w, plan, managed, s, k);
        if !res.Ok? {
          HaltStays(w, plan, managed, k + 1, |plan.hosts|);
          return records, if res.Err? then Aborted else Crashed;
        }
        records := records + [res.value];
      }
    }

    /** Sweeps, upserts, and works out the status to write. */
    method DoRunPlan(plan: Plan, status: Status) returns (status': Status, write: bool, halt: Halt)
      modifies client, client.net
      ensures Pass(Snapshot(), status', write, halt) == RunPlan(old(Snapshot()), plan, status)
    {
      status', write := status, false;
      var desired := CollectDescriptions(plan);
      var failed, stopped := SweepStale(status.managed, desired);
      if stopped {
        return status, false, Crashed;
      }
      var records;
      records, halt := UpsertHosts(plan, status.managed);
      if halt != Running {
        return;
      }
      if failed != [] {
        records := records + failed;
        status' := status.(managed := records, count := |records|);
        write := true;
      } else if status.resolvedHost != plan.destHost || status.resolvedPort != plan.destPort
        || !status.synced || status.managed != records
      {
        status' := Status(records, |records|, true, plan.destHost, plan.destPort);
        write := true;
      }
    }

    // --------------------------------------------------------------- deletion

    /** The host names by UUID; a later entry replaces an earlier one. */
    method IndexHosts(managed: seq<ManagedRecord>) returns (hosts: map<Uuid, string>)
      ensures Hosts(hosts, managed)
    {
      hosts := map[];
      for k := 0 to |managed|
        invariant Hosts(hosts, managed[..k])
      {
        assert managed[..k + 1][..k] == managed[..k];
        if managed[k].uuid != NO_UUID {
          hosts := hosts[managed[k].uuid := managed[k].sourceHost];
        }
      }
      assert managed[..|managed|] == managed;
    }

    method EraseRecord(hosts: map<Uuid, string>, d: string, ghost managed: seq<ManagedRecord>)
      returns (res: Result<()>)
      requires Hosts(hosts, managed)
      modifies client, client.net
      ensures Did(Snapshot(), res) == EraseOne(old(Snapshot()), managed, d)
    {
      var existing := DoGetProxyRecord(client, d);
      if existing.Err? {
        return Err(existing.fault);
      }
      if existing.Stopped? {
        return Stopped;
      }
      if existing.value.Some? {
        var rec := existing.value.value;
        var hostname := if rec.uuid in hosts then hosts[rec.uuid] else "";
        if hostname == "" {
          hostname := rec.frontend.fqdn;
        }
        if hostname != "" {
          var released := DoUnassignCertificate(client, rec.uuid, hostname);
          if released.Stopped? {
            return Stopped;
          }
        }
      }
      var deleted := DoDeleteProxyRecord(client, d);
      match deleted
      case Ok(_) => res := Ok(());
      case Err(f) => res := Err(f);
      case Stopped => res := Stopped;
    }

    method EraseAt(hosts: map<Uuid, string>, descs: seq<string>, k: nat, ghost managed: seq<ManagedRecord>,
        ghost w: World)
      returns (res: Result<()>)
      requires Hosts(hosts, managed) && k < |descs| && Did(Snapshot(), Ok(())) == Erase(w, managed, descs, k)
      modifies client, client.net
      ensures ErasesTo(w, managed, descs, k, Did(Snapshot(), res))
    {
      ghost var before := Snapshot();
      res := EraseRecord(hosts, descs[k], managed);
      ErasesNext(w, managed, descs, before, Did(Snapshot(), res), k);
    }

    /** The first failure ends it. */
    method EraseRecords(hosts: map<Uuid, string>, descs: seq<string>, ghost managed: seq<ManagedRecord>)
      returns (res: Result<()>)
      requires Hosts(hosts, managed)
      modifies client, client.net
      ensures Did(Snapshot(), res) == Erase(old(Snapshot()), managed, descs, |descs|)
    {
      ghost var w := Snapshot();
      for k := 0 to |descs|
        invariant Did(Snapshot(), Ok(())) == Erase(w, managed, descs, k)
      {
        res := EraseAt(hosts, descs, k, managed, w);
        if !res.Ok? {
          return;
        }
      }
      res := Ok(());
    }

    /** Deletes every tracked record. */
    method DoDeletePass(rule: Rule) returns (res: Result<()>)
      modifies client, client.net
      ensures Did(Snapshot(), res) == DeletePass(old(Snapshot()), rule)
    {
      var hosts := IndexHosts(rule.status.managed);
      res := EraseRecords(hosts, ManagedDescriptions(rule), rule.status.managed);
    }

    // -------------------------------------------------------------- reconcile

    method DoReconcileUpsert(cluster: Cluster, rule: Rule) returns (status: Status, write: bool, halt: Halt)
      modifies this, client, client.net
      ensures
        Upkeep(Cache(), Pass(Snapshot(), status, write, halt))
          == ReconcileUpsert(cfg, cluster, old(Cache()), old(Snapshot()), rule)
    {
      var prep := DoPrepare(cluster, rule);
      match prep
      case Unready => status, write, halt := rule.status, false, Aborted;
      case CrashedEarly => status, write, halt := rule.status, false, Crashed;
      case Planned(plan) => status, write, halt := DoRunPlan(plan, rule.status);
    }

    /** One reconcile of the stored rule. */
    method DoReconcile(api: StoredRule, cluster: Cluster, lands: bool) returns (recorded: bool)
      modifies this, client, client.net, api
      ensures
        Reconciled(Snapshot(), Cache(), api.rule, recorded)
          == Reconcile(cfg, cluster, old(Cache()), old(Snapshot()), old(api.rule), lands)
    {
      var rule := api.rule;
      recorded := false;
      if rule.deleting {
        var res := DoDeletePass(rule);
        if res.Ok? {
          api.Write(rule.(finalizer := false), lands);
        }
      } else if !rule.finalizer {
        api.Write(rule.(finalizer := true), lands);
      } else {
        var status, write, halt := DoReconcileUpsert(cluster, rule);
        if write {
          api.Write(rule.(status := status), lands);
        }
        recorded := halt == Running && (write ==> lands);
      }
    }
  }
}
