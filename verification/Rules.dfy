/** The SynologyProxyRule resource and the plan derived from it. */
module Rules {
  import opened Util
  import opened Dsm
  import opened Proxy

  datatype ObjectRef = ObjectRef(name: string, namespace: string)

  datatype Timeouts = Timeouts(connect: int, read: int, send: int)

  datatype Spec = Spec(
    sourceHost: string,
    additionalSourceHosts: seq<string>,
    sourcePort: int,
    destinationHost: string,
    destinationPort: int,
    destinationProtocol: string,
    aclProfile: string,
    assignCertificate: Option<bool>,
    customHeaders: seq<CustomHeader>,
    serviceRef: Option<ObjectRef>,
    ingressRef: Option<ObjectRef>,
    timeouts: Option<Timeouts>,
    description: string,
    managedByApp: string)

  datatype ManagedRecord =
    ManagedRecord(description: string, uuid: Uuid, sourceHost: string, certID: string)

  datatype Status = Status(
    managed: seq<ManagedRecord>,
    count: nat,
    synced: bool,
    resolvedHost: string,
    resolvedPort: int)

  datatype Rule = Rule(
    namespace: string,
    name: string,
    spec: Spec,
    status: Status,
    finalizer: bool,
    deleting: bool)

  /** One DSM record a rule wants: its description and its frontend host. */
  datatype HostEntry = HostEntry(desc: string, host: string)

  /** What a pass will enforce once backend, profile and host are known. */
  datatype Plan = Plan(
    base: ProxyRule,
    hosts: seq<HostEntry>,
    assignCert: bool,
    destHost: string,
    destPort: int)

  function DescriptionFor(rule: Rule): string {
    if rule.spec.description != "" then rule.spec.description
    else rule.namespace + "/" + rule.name
  }

  /** The primary host keeps the base description; the others append their host. */
  function HostsOf(base: string, primary: string, additional: seq<string>): (hs: seq<HostEntry>)
    ensures |hs| == |additional| + 1
  {
    [HostEntry(base, primary)] +
    seq(|additional|, i requires 0 <= i < |additional| =>
      HostEntry(base + "/" + additional[i], additional[i]))
  }

  function BaseRule(spec: Spec, destHost: string, destPort: int, aclID: string): ProxyRule {
    var t := if spec.timeouts.Some? then spec.timeouts.value else Timeouts(0, 0, 0);
    ProxyRule("", "", spec.sourcePort, destHost, destPort, spec.destinationProtocol == "https", aclID,
      if spec.customHeaders == [] then None else Some(spec.customHeaders),
      t.connect, t.read, t.send)
  }

  function PlanFor(rule: Rule, destHost: string, destPort: int, aclID: string, primary: string): Plan {
    Plan(
      BaseRule(rule.spec, destHost, destPort, aclID),
      HostsOf(DescriptionFor(rule), primary, rule.spec.additionalSourceHosts),
      rule.spec.assignCertificate.None? || rule.spec.assignCertificate.value,
      destHost,
      destPort)
  }

  /** The descriptions a rule wants depend on its name and spec alone. */
  function WantedDescs(rule: Rule): set<string> {
    {DescriptionFor(rule)} +
    set h | h in rule.spec.additionalSourceHosts :: DescriptionFor(rule) + "/" + h
  }

  function RuleAt(plan: Plan, i: nat): ProxyRule
    requires i < |plan.hosts|
  {
    plan.base.(description := plan.hosts[i].desc, sourceHost := plan.hosts[i].host)
  }

  /** The DSM entry wanted for host `i`. */
  function Want(plan: Plan, i: nat): (e: ProxyEntry)
    requires i < |plan.hosts|
    ensures e.description == plan.hosts[i].desc
    ensures e.frontend.fqdn == plan.hosts[i].host && e.frontend.port == Or(plan.base.sourcePort, 443)
  {
    Desired(RuleAt(plan, i))
  }

  /** The descriptions of the first `k` hosts. */
  function DescsUpTo(plan: Plan, k: nat): (r: set<string>)
    requires k <= |plan.hosts|
    ensures forall i | 0 <= i < k :: plan.hosts[i].desc in r
    ensures forall d | d in r :: exists i | 0 <= i < k :: plan.hosts[i].desc == d
  {
    set i | 0 <= i < k :: plan.hosts[i].desc
  }

  function Descs(plan: Plan): set<string> {
    DescsUpTo(plan, |plan.hosts|)
  }

  /** A description determines its host. */
  ghost predicate WellNamed(plan: Plan) {
    forall i, j | 0 <= i < |plan.hosts| && 0 <= j < |plan.hosts| ::
      plan.hosts[i].desc == plan.hosts[j].desc ==> plan.hosts[i] == plan.hosts[j]
  }

  lemma AppendInjective(base: string, a: string, b: string)
    requires base + "/" + a == base + "/" + b
    ensures a == b
  {
    assert (base + "/" + a)[|base| + 1..] == a;
    assert (base + "/" + b)[|base| + 1..] == b;
  }

  /** The naming scheme is injective within a rule. */
  lemma HostsWellNamed(base: string, primary: string, additional: seq<string>, i: nat, j: nat)
    requires i <= |additional| && j <= |additional|
    requires HostsOf(base, primary, additional)[i].desc == HostsOf(base, primary, additional)[j].desc
    ensures HostsOf(base, primary, additional)[i] == HostsOf(base, primary, additional)[j]
  {
    if i > 0 && j > 0 {
      AppendInjective(base, additional[i - 1], additional[j - 1]);
    }
  }

  lemma PlanWellNamed(rule: Rule, destHost: string, destPort: int, aclID: string, primary: string)
    ensures
      var plan := PlanFor(rule, destHost, destPort, aclID, primary);
      WellNamed(plan) && plan.hosts != [] && Descs(plan) == WantedDescs(rule)
  {
    var plan := PlanFor(rule, destHost, destPort, aclID, primary);
    var add := rule.spec.additionalSourceHosts;
    forall i, j | 0 <= i < |plan.hosts| && 0 <= j < |plan.hosts| && plan.hosts[i].desc == plan.hosts[j].desc
      ensures plan.hosts[i] == plan.hosts[j]
    {
      HostsWellNamed(DescriptionFor(rule), primary, add, i, j);
    }
    forall h | h in add ensures DescriptionFor(rule) + "/" + h in Descs(plan) {
      var i :| 0 <= i < |add| && add[i] == h;
      assert plan.hosts[i + 1].desc == DescriptionFor(rule) + "/" + h;
    }
    assert plan.hosts[0].desc == DescriptionFor(rule);
    forall d | d in Descs(plan) ensures d in WantedDescs(rule) {
      var i :| 0 <= i < |plan.hosts| && plan.hosts[i].desc == d;
      if i > 0 { assert add[i - 1] in add; }
    }
  }
}
