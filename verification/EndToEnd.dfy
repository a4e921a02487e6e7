/** Whole reconciles, from the resource to what is in DSM: that they get there at all, and what
    is there then. */
module EndToEnd {
  import opened Util
  import opened Dsm
  import opened Client
  import opened CertificateChoice
  import opened Rules
  import opened Backend
  import opened Acl
  import opened Sync
  import opened Finalizer
  import opened Convergence
  import opened RowTurns
  import opened Reconciler

  // ------------------------------------------------------------- getting ready

  /** The access control profile is none, or known, or listed by DSM. */
  ghost predicate ProfileAt(cfg: Config, cache: AclCache, w: World, rule: Rule) {
    var name := if rule.spec.aclProfile == "" then cfg.defaultACLProfile else rule.spec.aclProfile;
    || name == ""
    || (name in cache.ids && w.now - cache.at < 300)
    || exists p | p in w.nas.aclProfiles :: p.name == name
  }

  /** On a healthy network a rule gets as far as a plan exactly when it has a backend, its
      profile is there, and one of the possible source hosts is not empty. */
  lemma ReadyExactly(cfg: Config, cluster: Cluster, cache: AclCache, w: World, rule: Rule)
    requires w.script == []
    ensures
      var prep := Prepare(cfg, cluster, cache, w, rule);
      && prep.w.script == [] && prep.w.nas == w.nas && (prep.result.Planned? || prep.result.Unready?)
      && (prep.result.Planned? <==>
            && ResolveBackend(cluster, rule).Some? && ProfileAt(cfg, cache, w, rule)
            && exists h | h in HostSources(cluster, cfg.defaultDomain, rule) :: h != "")
  {
    PrepareEffect(cfg, cluster, cache, w, rule);
    GetACLEffect(w, ProfileName(cfg, rule));
    CacheFirst(w, cache, ProfileName(cfg, rule));
    SourceHostOrder(cluster, cfg.defaultDomain, rule);
  }

  // ------------------------------------------------------------- a live rule

  /** The host names of a rule: the primary one, and then those the spec adds. */
  function HostNamed(rule: Rule, primary: string, i: nat): string
    requires i <= |rule.spec.additionalSourceHosts|
  {
    if i == 0 then primary else rule.spec.additionalSourceHosts[i - 1]
  }

  /** Nothing in DSM has a description or a frontend of the rule, and no host is named twice. */
  ghost predicate RoomFor(rs: seq<ProxyEntry>, rule: Rule, primary: string) {
    var port := if rule.spec.sourcePort == 0 then 443 else rule.spec.sourcePort;
    && (forall i, r | 0 <= i <= |rule.spec.additionalSourceHosts| && r in rs ::
          && r.description != RecordName(rule, i)
          && !(r.frontend.fqdn == HostNamed(rule, primary, i) && r.frontend.port == port))
    && (forall i, j | 0 <= i < j <= |rule.spec.additionalSourceHosts| ::
          HostNamed(rule, primary, i) != HostNamed(rule, primary, j))
  }

  lemma PlannedHosts(cfg: Config, cluster: Cluster, cache: AclCache, w: World, rule: Rule)
    requires Prepare(cfg, cluster, cache, w, rule).result.Planned?
    ensures
      var plan := Prepare(cfg, cluster, cache, w, rule).result.plan;
      var primary := DeriveSourceHost(cluster, cfg.defaultDomain, rule);
      && primary.Some? && |plan.hosts| == |rule.spec.additionalSourceHosts| + 1
      && plan.base.sourcePort == rule.spec.sourcePort
      && forall i | 0 <= i < |plan.hosts| ::
           plan.hosts[i] == HostEntry(RecordName(rule, i), HostNamed(rule, primary.value, i))
  {
  }

  lemma RoomIsClear(plan: Plan, rs: seq<ProxyEntry>, rule: Rule, primary: string, i: nat)
    requires RoomFor(rs, rule, primary) && i < |plan.hosts| == |rule.spec.additionalSourceHosts| + 1
    requires plan.base.sourcePort == rule.spec.sourcePort
    requires forall k | 0 <= k < |plan.hosts| ::
      plan.hosts[k] == HostEntry(RecordName(rule, k), HostNamed(rule, primary, k))
    ensures Clear(rs, plan, i)
  {
    forall r | r in rs ensures !SameFrontend(r.frontend, Want(plan, i).frontend) {
      assert plan.hosts[i].host == HostNamed(rule, primary, i);
    }
  }

  /** A pass of a rule that tracks nothing, with room for it. */
  lemma RoomRuns(w: World, plan: Plan, status: Status, rule: Rule, primary: string)
    requires Sound(w.nas) && w.script == [] && WellNamed(plan) && status.managed == []
    requires RoomFor(w.nas.records, rule, primary) && |plan.hosts| == |rule.spec.additionalSourceHosts| + 1
    requires plan.base.sourcePort == rule.spec.sourcePort
    requires forall k | 0 <= k < |plan.hosts| ::
      plan.hosts[k] == HostEntry(RecordName(rule, k), HostNamed(rule, primary, k))
    ensures RunPlan(w, plan, status).halt == Running
    ensures Converged(RunPlan(w, plan, status).w.nas, plan, RunPlan(w, plan, status).status)
  {
    HealthyPass(w, plan, status);
    assert AllStale(status, plan) == {};
    DropNothing(w.nas.records, {});
    forall i | 0 <= i < |plan.hosts| ensures Clear(w.nas.records, plan, i) {
      RoomIsClear(plan, w.nas.records, rule, primary, i);
    }
  }

  /** The rule can be prepared, and there is room for its hosts. */
  ghost predicate Welcome(cfg: Config, cluster: Cluster, cache: AclCache, w: World, rule: Rule) {
    && ResolveBackend(cluster, rule).Some? && ProfileAt(cfg, cache, w, rule)
    && DeriveSourceHost(cluster, cfg.defaultDomain, rule).Some?
    && RoomFor(w.nas.records, rule, DeriveSourceHost(cluster, cfg.defaultDomain, rule).value)
  }

  lemma WelcomeRuns(cfg: Config, cluster: Cluster, cache: AclCache, w: World, rule: Rule)
    requires Sound(w.nas) && w.script == [] && rule.status.managed == [] && Welcome(cfg, cluster, cache, w, rule)
    ensures
      var prep := Prepare(cfg, cluster, cache, w, rule);
      var pass := ReconcileUpsert(cfg, cluster, cache, w, rule).pass;
      && prep.result.Planned? && pass == RunPlan(prep.w, prep.result.plan, rule.status)
      && pass.halt == Running && Converged(pass.w.nas, prep.result.plan, pass.status)
  {
    SourceHostOrder(cluster, cfg.defaultDomain, rule);
    ReadyExactly(cfg, cluster, cache, w, rule);
    PrepareEffect(cfg, cluster, cache, w, rule);
    PlannedHosts(cfg, cluster, cache, w, rule);
    var prep := Prepare(cfg, cluster, cache, w, rule);
    RoomRuns(prep.w, prep.result.plan, rule.status, rule, DeriveSourceHost(cluster, cfg.defaultDomain, rule).value);
  }

  /** One reconcile of a live rule that tracks nothing, on a healthy network: every host is in
      DSM and in the status. */
  lemma LiveRuleArrives(cfg: Config, cluster: Cluster, cache: AclCache, w: World, rule: Rule, i: nat)
    returns (r: ProxyEntry, aclID: string)
    requires Sound(w.nas) && w.script == [] && i <= |rule.spec.additionalSourceHosts|
    requires !rule.deleting && rule.finalizer && rule.status.managed == [] && Welcome(cfg, cluster, cache, w, rule)
    ensures
      var done := Reconcile(cfg, cluster, cache, w, rule, true);
      var host := HostNamed(rule, DeriveSourceHost(cluster, cfg.defaultDomain, rule).value, i);
      var backend := ResolveBackend(cluster, rule).value;
      && done.recorded && done.rule == rule.(status := done.rule.status) && done.rule.status.synced
      && (done.rule.status.resolvedHost, done.rule.status.resolvedPort) == backend
      && At(done.w.nas.records, RecordName(rule, i)) == [r]
      && Delivers(rule.spec, r, host, backend.0, backend.1, aclID) && AclGiven(cfg, cache, w, rule, aclID)
      && |done.rule.status.managed| == |rule.spec.additionalSourceHosts| + 1
      && done.rule.status.managed[i].description == RecordName(rule, i)
      && done.rule.status.managed[i].uuid == r.uuid && done.rule.status.managed[i].sourceHost == host
  {
    WelcomeRuns(cfg, cluster, cache, w, rule);
    PlannedHosts(cfg, cluster, cache, w, rule);
    WrittenOrSame(cfg, cluster, cache, w, rule);
    r, aclID := PassDelivers(cfg, cluster, cache, w, rule, i);
    BackendOfPlan(cfg, cluster, cache, w, rule);
  }

  lemma BackendOfPlan(cfg: Config, cluster: Cluster, cache: AclCache, w: World, rule: Rule)
    requires Prepare(cfg, cluster, cache, w, rule).result.Planned?
    ensures
      var plan := Prepare(cfg, cluster, cache, w, rule).result.plan;
      ResolveBackend(cluster, rule) == Some((plan.destHost, plan.destPort))
  {
  }

  /** A finished pass whose write lands has the status it computed in the resource. */
  lemma WrittenOrSame(cfg: Config, cluster: Cluster, cache: AclCache, w: World, rule: Rule)
    requires !rule.deleting && rule.finalizer
    requires ReconcileUpsert(cfg, cluster, cache, w, rule).pass.halt == Running
    ensures
      var pass := ReconcileUpsert(cfg, cluster, cache, w, rule).pass;
      var done := Reconcile(cfg, cluster, cache, w, rule, true);
      done.recorded && done.w == pass.w && done.rule == rule.(status := pass.status)
  {
    var prep := Prepare(cfg, cluster, cache, w, rule);
    StatusExactly(prep.w, prep.result.plan, rule.status);
  }

  /** The finalizer has no part in what a rule asks for. */
  lemma FinalizerAside(cfg: Config, cluster: Cluster, cache: AclCache, w: World, rule: Rule)
    ensures
      var live := rule.(finalizer := true);
      && ResolveBackend(cluster, live) == ResolveBackend(cluster, rule)
      && DeriveSourceHost(cluster, cfg.defaultDomain, live) == DeriveSourceHost(cluster, cfg.defaultDomain, rule)
      && forall i | 0 <= i <= |rule.spec.additionalSourceHosts| :: RecordName(live, i) == RecordName(rule, i)
  {
  }

  lemma StillWelcome(cfg: Config, cluster: Cluster, cache: AclCache, w: World, rule: Rule)
    requires Welcome(cfg, cluster, cache, w, rule)
    ensures Welcome(cfg, cluster, cache, w, rule.(finalizer := true))
  {
    FinalizerAside(cfg, cluster, cache, w, rule);
    var live, primary := rule.(finalizer := true), DeriveSourceHost(cluster, cfg.defaultDomain, rule).value;
    assert forall i | 0 <= i <= |rule.spec.additionalSourceHosts| ::
      HostNamed(live, primary, i) == HostNamed(rule, primary, i);
  }

  /** A new rule on a healthy network: the first reconcile sends nothing and puts the finalizer
      on, the second brings every host into DSM and has it in the status. */
  lemma NewRuleArrives(cfg: Config, cluster: Cluster, cache: AclCache, w: World, rule: Rule, i: nat)
    returns (r: ProxyEntry, aclID: string)
    requires Sound(w.nas) && w.script == [] && i <= |rule.spec.additionalSourceHosts|
    requires !rule.deleting && !rule.finalizer && rule.status.managed == [] && Welcome(cfg, cluster, cache, w, rule)
    ensures
      var one := Reconcile(cfg, cluster, cache, w, rule, true);
      var two := Reconcile(cfg, cluster, one.cache, one.w, one.rule, true);
      var host := HostNamed(rule, DeriveSourceHost(cluster, cfg.defaultDomain, rule).value, i);
      var backend := ResolveBackend(cluster, rule).value;
      && one.w == w && one.rule == rule.(finalizer := true) && !one.recorded
      && two.recorded && two.rule.finalizer
      && At(two.w.nas.records, RecordName(rule, i)) == [r]
      && Delivers(rule.spec, r, host, backend.0, backend.1, aclID)
      && |two.rule.status.managed| == |rule.spec.additionalSourceHosts| + 1
      && two.rule.status.managed[i].description == RecordName(rule, i)
      && two.rule.status.managed[i].uuid == r.uuid && two.rule.status.managed[i].sourceHost == host
  {
    FinalizerAside(cfg, cluster, cache, w, rule);
    StillWelcome(cfg, cluster, cache, w, rule);
    r, aclID := LiveRuleArrives(cfg, cluster, cache, w, rule.(finalizer := true), i);
  }

  // --------------------------------------------------------------- certificates

  /** The rows a record is to have: the certificate chosen for its host, if there is one and
      the spec does not say otherwise. */
  function CertificateAsked(spec: Spec, certs: seq<Certificate>, host: string): seq<string> {
    if spec.assignCertificate == Some(false) || BestCert(certs, host).0 == "" then []
    else [BestCert(certs, host).0]
  }

  /** A finished pass on a healthy network leaves each record it has created with the
      certificate the spec asks for: the one chosen for its host, by default and when the
      field is true, and none when it is false. */
  lemma CreatedHasCertificate(cfg: Config, cluster: Cluster, cache: AclCache, w: World, rule: Rule, i: nat)
    requires Sound(w.nas) && w.script == [] && i <= |rule.spec.additionalSourceHosts|
    requires NoFutureRows(w.nas) && Allocated(w.nas, rule.status.managed)
    requires ReconcileUpsert(cfg, cluster, cache, w, rule).pass.halt == Running
    requires At(w.nas.records, RecordName(rule, i)) == []
    ensures
      var nas' := ReconcileUpsert(cfg, cluster, cache, w, rule).pass.w.nas;
      var primary := DeriveSourceHost(cluster, cfg.defaultDomain, rule);
      var at := At(nas'.records, RecordName(rule, i));
      && primary.Some? && |at| == 1
      && CertsOf(nas'.services, at[0].uuid)
           == CertificateAsked(rule.spec, w.nas.certificates, HostNamed(rule, primary.value, i))
  {
    ReadyExactly(cfg, cluster, cache, w, rule);
    PrepareEffect(cfg, cluster, cache, w, rule);
    PlannedHosts(cfg, cluster, cache, w, rule);
    var prep := Prepare(cfg, cluster, cache, w, rule);
    PassFresh(prep.w, prep.result.plan, rule.status, i);
    var r, aclID := PassDelivers(cfg, cluster, cache, w, rule, i);
  }

  // ------------------------------------------------------------------- deletion

  /** A reconcile of a deleted rule: the finalizer goes exactly when the records that deletion
      is about are gone and the write lands; on a healthy network it does. */
  lemma DeletedIsReleased(cfg: Config, cluster: Cluster, cache: AclCache, w: World, rule: Rule, lands: bool)
    requires Sound(w.nas) && rule.deleting && rule.finalizer
    ensures
      var r := Reconcile(cfg, cluster, cache, w, rule, lands);
      && (r.rule == rule || r.rule == rule.(finalizer := false))
      && (!r.rule.finalizer ==> lands && r.w.nas.records == Drop(w.nas.records, ToDelete(rule)))
      && (w.script == [] ==>
            r.w.nas.records == Drop(w.nas.records, ToDelete(rule)) && r.rule.finalizer == !lands)
  {
    DeletesNamed(w, rule);
  }
}
