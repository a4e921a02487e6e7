/** One reconcile of a rule: finalizer, deletion, or a pass over its hosts. */
module Reconciler {
  import opened Util
  import opened Dsm
  import opened Client
  import opened Proxy
  import opened Rules
  import opened Backend
  import opened Acl
  import opened Sync
  import opened Finalizer
  import opened Convergence

  datatype Config = Config(defaultACLProfile: string, defaultDomain: string)

  datatype Preparation = Planned(plan: Plan) | Unready | CrashedEarly

  datatype Prepared = Prepared(w: World, cache: AclCache, result: Preparation)

  function ProfileName(cfg: Config, rule: Rule): string {
    OrElse(rule.spec.aclProfile, cfg.defaultACLProfile)
  }

  /** Everything a pass decides before its first write to DSM. */
  function Prepare(cfg: Config, cluster: Cluster, cache: AclCache, w: World, rule: Rule): Prepared {
    match ResolveBackend(cluster, rule)
    case None => Prepared(w, cache, Unready)
    case Some((host, port)) =>
      var acl := if ProfileName(cfg, rule) == "" then Resolved(w, cache, Ok(""))
        else ResolveACLProfile(w, cache, ProfileName(cfg, rule));
      match acl.res
      case Err(_) => Prepared(acl.w, acl.cache, Unready)
      case Stopped => Prepared(acl.w, acl.cache, CrashedEarly)
      case Ok(aclID) =>
        match DeriveSourceHost(cluster, cfg.defaultDomain, rule)
        case None => Prepared(acl.w, acl.cache, Unready)
        case Some(primary) => Prepared(acl.w, acl.cache, Planned(PlanFor(rule, host, port, aclID, primary)))
  }

  datatype Upkeep = Upkeep(cache: AclCache, pass: Pass)

  function ReconcileUpsert(cfg: Config, cluster: Cluster, cache: AclCache, w: World, rule: Rule): Upkeep {
    var prep := Prepare(cfg, cluster, cache, w, rule);
    match prep.result
    case Unready => Upkeep(prep.cache, Pass(prep.w, rule.status, false, Aborted))
    case CrashedEarly => Upkeep(prep.cache, Pass(prep.w, rule.status, false, Crashed))
    case Planned(plan) => Upkeep(prep.cache, RunPlan(prep.w, plan, rule.status))
  }

  /** `recorded` says that a pass ran to its end and its record list is in the status. */
  datatype Reconciled = Reconciled(w: World, cache: AclCache, rule: Rule, recorded: bool)

  /** `lands` says whether the write to the API server at the end succeeds. */
  function Reconcile(cfg: Config, cluster: Cluster, cache: AclCache, w: World, rule: Rule, lands: bool): Reconciled {
    if rule.deleting then
      var d := DeletePass(w, rule);
      Reconciled(d.w, cache, if d.res.Ok? && lands then rule.(finalizer := false) else rule, false)
    else if !rule.finalizer then
      Reconciled(w, cache, if lands then rule.(finalizer := true) else rule, false)
    else
      var u := ReconcileUpsert(cfg, cluster, cache, w, rule);
      Reconciled(u.pass.w, u.cache, if u.pass.write && lands then rule.(status := u.pass.status) else rule,
        u.pass.halt == Running && (u.pass.write ==> lands))
  }

  // --------------------------------------------------------------- preparation

  /** Preparing reads DSM and nothing more. A plan that results has a complete
      backend, in which explicit spec values win, follows the naming scheme, and assigns
      certificates unless the spec says not to. */
  lemma PrepareEffect(cfg: Config, cluster: Cluster, cache: AclCache, w: World, rule: Rule)
    ensures
      var prep := Prepare(cfg, cluster, cache, w, rule);
      && OnlyRead(w, prep.w)
      && (prep.result.Planned? ==>
            var plan := prep.result.plan;
            && WellNamed(plan) && plan.hosts != []
            && Descs(plan) == WantedDescs(rule)
            && plan.destHost != "" && plan.destPort != 0
            && plan.base.destinationHost == plan.destHost && plan.base.destinationPort == plan.destPort
            && (rule.spec.destinationHost != "" ==> plan.destHost == rule.spec.destinationHost)
            && (rule.spec.destinationPort != 0 ==> plan.destPort == rule.spec.destinationPort)
            && plan.hosts[0].host != ""
            && (plan.assignCert <==> rule.spec.assignCertificate != Some(false)))
  {
    var backend := ResolveBackend(cluster, rule);
    BackendResolution(cluster, rule);
    assert OnlyRead(w, w);
    if backend.Some? {
      GetACLEffect(w, ProfileName(cfg, rule));
      var prep := Prepare(cfg, cluster, cache, w, rule);
      if prep.result.Planned? {
        var acl := if ProfileName(cfg, rule) == "" then Resolved(w, cache, Ok(""))
          else ResolveACLProfile(w, cache, ProfileName(cfg, rule));
        var primary := DeriveSourceHost(cluster, cfg.defaultDomain, rule);
        PlanWellNamed(rule, backend.value.0, backend.value.1, acl.res.value, primary.value);
      }
    }
  }

  /** The description and the host of a rule's record: the primary first, then the
      additional hosts in the order of the spec. */
  function RecordName(rule: Rule, i: nat): string
    requires i <= |rule.spec.additionalSourceHosts|
  {
    var base := if rule.spec.description == "" then rule.namespace + "/" + rule.name else rule.spec.description;
    if i == 0 then base else base + "/" + rule.spec.additionalSourceHosts[i - 1]
  }

  /** The record is what the spec asks for, field by field. */
  predicate Delivers(spec: Spec, r: ProxyEntry, host: string, destHost: string, destPort: int, aclID: string) {
    && r.frontend.fqdn == host
    && r.frontend.port == (if spec.sourcePort == 0 then 443 else spec.sourcePort)
    && r.frontend.acl == aclID
    && r.backend.fqdn == destHost
    && r.backend.port == destPort
    && r.backend.protocol == (if spec.destinationProtocol == "https" then 1 else 0)
    && r.connectTimeout == (if spec.timeouts.None? || spec.timeouts.value.connect ==
         0 then 60 else spec.timeouts.value.connect)
    && r.readTimeout == (if spec.timeouts.None? || spec.timeouts.value.read == 0 then 60 else spec.timeouts.value.read)
    && r.sendTimeout == (if spec.timeouts.None? || spec.timeouts.value.send == 0 then 60 else spec.timeouts.value.send)
    && r.customizeHeaders == Some(
         if spec.customHeaders != [] then spec.customHeaders
         else [CustomHeader("Upgrade", "$http_upgrade"), CustomHeader("Connection", "$connection_upgrade")])
  }

  /** The identifier is the one DSM lists for the profile, or the cached one. */
  ghost predicate AclGiven(cfg: Config, cache: AclCache, w: World, rule: Rule, aclID: string) {
    var name := if rule.spec.aclProfile == "" then cfg.defaultACLProfile else rule.spec.aclProfile;
    if name == "" then aclID == ""
    else if name in cache.ids && w.now - cache.at < 300 then aclID == cache.ids[name]
    else ListedAs(w.nas.aclProfiles, name, aclID)
  }

  lemma PrepareDelivers(cfg: Config, cluster: Cluster, cache: AclCache, w: World, rule: Rule, i: nat, r: ProxyEntry)
    returns (aclID: string)
    requires i <= |rule.spec.additionalSourceHosts|
    requires Prepare(cfg, cluster, cache, w, rule).result.Planned?
    requires
      var plan := Prepare(cfg, cluster, cache, w, rule).result.plan;
      i < |plan.hosts| && ProxyRecordEqual(r, Want(plan, i))
    ensures
      var plan := Prepare(cfg, cluster, cache, w, rule).result.plan;
      var primary := DeriveSourceHost(cluster, cfg.defaultDomain, rule);
      && primary.Some? && AclGiven(cfg, cache, w, rule, aclID)
      && Delivers(rule.spec, r, if i == 0 then primary.value else rule.spec.additionalSourceHosts[i - 1],
           plan.destHost, plan.destPort, aclID)
      && plan.hosts[i].desc == RecordName(rule, i)
      && ResolveBackend(cluster, rule) == Some((plan.destHost, plan.destPort))
  {
    GetACLEffect(w, ProfileName(cfg, rule));
    aclID := Prepare(cfg, cluster, cache, w, rule).result.plan.base.aclProfileID;
  }

  lemma PlanDelivers(w: World, plan: Plan, status: Status, i: nat) returns (r: ProxyEntry)
    requires Sound(w.nas) && WellNamed(plan) && i < |plan.hosts|
    requires RunPlan(w, plan, status).halt == Running
    ensures At(RunPlan(w, plan, status).w.nas.records, plan.hosts[i].desc) == [r]
    ensures ProxyRecordEqual(r, Want(plan, i))
  {
    var failed := PassEffect(w, plan, status);
    var at := At(RunPlan(w, plan, status).w.nas.records, plan.hosts[i].desc);
    r := at[0];
    assert at == [r];
  }

  /** End to end: when a reconcile has run its pass to the end, on whatever network, each
      host of the spec has exactly one DSM record, which is what the spec asks for. */
  lemma PassDelivers(cfg: Config, cluster: Cluster, cache: AclCache, w: World, rule: Rule, i: nat)
    returns (r: ProxyEntry, aclID: string)
    requires Sound(w.nas) && i <= |rule.spec.additionalSourceHosts|
    requires ReconcileUpsert(cfg, cluster, cache, w, rule).pass.halt == Running
    ensures
      var w' := ReconcileUpsert(cfg, cluster, cache, w, rule).pass.w;
      var primary := DeriveSourceHost(cluster, cfg.defaultDomain, rule);
      var backend := ResolveBackend(cluster, rule);
      && At(w'.nas.records, RecordName(rule, i)) == [r]
      && primary.Some? && backend.Some? && AclGiven(cfg, cache, w, rule, aclID)
      && Delivers(rule.spec, r, if i == 0 then primary.value else rule.spec.additionalSourceHosts[i - 1],
           backend.value.0, backend.value.1, aclID)
  {
    PrepareEffect(cfg, cluster, cache, w, rule);
    var prep := Prepare(cfg, cluster, cache, w, rule);
    assert i < |prep.result.plan.hosts|;
    r := PlanDelivers(prep.w, prep.result.plan, rule.status, i);
    aclID := PrepareDelivers(cfg, cluster, cache, w, rule, i, r);
  }
}
