/** What a watcher stores for its source, field by field, and what the rule then leads to. */
module WatchedRules {
  import opened Util
  import opened Rules
  import opened Watcher
  import Backend

  /** The value of an annotation, "" without it. */
  function Value(a: Annotations, key: string): string {
    if key in a then a[key] else ""
  }

  /** Where the rule of a source is: in the configured namespace, else for an Application in its
      destination, else beside the source; an object's rule is named after namespace and name. */
  function PlaceOf(cfg: Setting, src: Source): Key {
    Key(if cfg.ruleNamespace != "" then cfg.ruleNamespace
        else if src.FromApp? && src.destination != "" then src.destination
        else src.namespace,
      if src.FromApp? then src.name else src.namespace + "--" + src.name)
  }

  /** What the specs of all kinds of sources have in common. */
  predicate CommonSpec(s: Spec, a: Annotations) {
    && s.additionalSourceHosts == [] && s.sourcePort == 443 && s.customHeaders == [] && s.timeouts.None?
    && s.destinationProtocol == (if Value(a, "synology.proxy/destination-protocol") == "" then "http"
         else Value(a, "synology.proxy/destination-protocol"))
    && s.aclProfile == Value(a, "synology.proxy/acl-profile")
    && s.assignCertificate == Some(!Says(a, "synology.proxy/assign-certificate", "false"))
  }

  /** The spec for a Service or an Ingress: it refers to that very object and leaves the
      destination to discovery. */
  predicate ObjectSpec(s: Spec, src: Source) {
    && CommonSpec(s, src.annotations)
    && s.sourceHost == Value(src.annotations, "synology.proxy/source-host")
    && s.destinationHost == "" && s.destinationPort == 0
    && s.serviceRef == (if src.FromService? then Some(ObjectRef(src.name, src.namespace)) else None)
    && s.ingressRef == (if src.FromIngress? then Some(ObjectRef(src.name, src.namespace)) else None)
    && s.description == src.namespace + "--" + src.name && s.managedByApp == ""
  }

  /** A reference in an annotation: "namespace/name", or a name in the destination. */
  ghost predicate RefFrom(v: string, destination: string, ref: ObjectRef) {
    && (forall namespace, name | '/' !in namespace && v == namespace + "/" + name :: ref == ObjectRef(name, namespace))
    && ('/' !in v ==> ref == ObjectRef(v, destination))
  }

  /** The spec for an Application: a service reference goes before an Ingress reference. */
  ghost predicate AppSpec(s: Spec, src: Source, domain: string)
    requires src.FromApp?
  {
    var a := src.annotations;
    var host, port := Value(a, "synology.proxy/source-host"), Value(a, "synology.proxy/destination-port");
    var service, ingress := Value(a, "synology.proxy/service-ref"), Value(a, "synology.proxy/ingress-ref");
    && CommonSpec(s, a)
    && s.sourceHost == (if host != "" then host else if domain == "" then "" else src.name + "." + domain)
    && s.destinationHost == Value(a, "synology.proxy/destination-host")
    && (port == "" ==> s.destinationPort == 0)
    && (forall n: int | -0x8000_0000_0000_0000 <= n < 0x8000_0000_0000_0000 && port == Decimal(n) ::
          s.destinationPort == n)
    && (s.serviceRef.Some? <==> service != "")
    && (service != "" ==> RefFrom(service, src.destination, s.serviceRef.value))
    && (s.ingressRef.Some? <==> service == "" && ingress != "")
    && (service == "" && ingress != "" ==> RefFrom(ingress, src.destination, s.ingressRef.value))
    && s.description == src.name && s.managedByApp == src.name
  }

  lemma ParsesFrom(v: string, destination: string)
    ensures RefFrom(v, destination, ParseRef(v, destination))
  {
    forall namespace, name | '/' !in namespace && v == namespace + "/" + name
      ensures ParseRef(v, destination) == ObjectRef(name, namespace)
    {
      RefRoundTrip(name, namespace, destination);
    }
    var i := Slash(v);
    assert i < |v| ==> v[i] in v;
  }

  lemma PortFrom(v: string)
    ensures v == "" ==> PortOf(v) == 0
    ensures forall n: int | -0x8000_0000_0000_0000 <= n < 0x8000_0000_0000_0000 && v == Decimal(n) :: PortOf(v) == n
  {
    forall n: int | -0x8000_0000_0000_0000 <= n < 0x8000_0000_0000_0000 && v == Decimal(n) ensures PortOf(v) == n {
      PortRoundTrip(n);
    }
  }

  lemma CommonOf(cfg: Setting, src: Source)
    ensures CommonSpec(Defaulted(BuildSpec(cfg, src)), src.annotations)
  {
    LowerSays(src.annotations, ASSIGN_CERT, "false");
  }

  lemma BuiltObject(cfg: Setting, src: Source)
    requires !src.FromApp?
    ensures ObjectSpec(Defaulted(BuildSpec(cfg, src)), src)
  {
    CommonOf(cfg, src);
  }

  lemma BuiltApp(cfg: Setting, src: Source)
    requires src.FromApp?
    ensures AppSpec(Defaulted(BuildSpec(cfg, src)), src, cfg.defaultDomain)
  {
    CommonOf(cfg, src);
    PortFrom(Value(src.annotations, "synology.proxy/destination-port"));
    ParsesFrom(Value(src.annotations, "synology.proxy/service-ref"), src.destination);
    ParsesFrom(Value(src.annotations, "synology.proxy/ingress-ref"), src.destination);
  }

  /** A reconcile of a source that is to have a rule leaves one in its place, and the spec of
      that rule is what the source says, whatever was there. */
  lemma StoredRule(cfg: Setting, rules: Store, src: Source)
    requires Admitted(rules) && !src.deleting && Documented(cfg, rules, src) == Manage
    ensures
      var rules' := Reconcile(cfg, rules, src).rules;
      && PlaceOf(cfg, src) in rules'
      && var spec := rules'[PlaceOf(cfg, src)].spec;
         if src.FromApp? then AppSpec(spec, src, cfg.defaultDomain) else ObjectSpec(spec, src)
  {
    DecidesAsDocumented(cfg, rules, src);
    ReconcileReaches(cfg, rules, src);
    assert KeyOf(cfg, src) == PlaceOf(cfg, src);
    if src.FromApp? {
      BuiltApp(cfg, src);
    } else {
      BuiltObject(cfg, src);
    }
  }

  function LabelsFor(src: Source): map<string, string> {
    if src.FromApp? then
      map["app.kubernetes.io/managed-by" := "synology-proxy-operator",
          "proxy.synology.io/managed-by-argo-app" := src.name,
          "proxy.synology.io/managed-by-argo-app-ns" := src.namespace]
      + (if AimsAt(src) then map["proxy.synology.io/target-namespace" := src.destination] else map[])
    else
      map["app.kubernetes.io/managed-by" := "synology-proxy-operator",
          "proxy.synology.io/managed-by-object" := src.name,
          "proxy.synology.io/managed-by-object-ns" := src.namespace]
  }

  /** An Application with a destination and no references. */
  predicate AimsAt(src: Source)
    requires src.FromApp?
  {
    && Value(src.annotations, "synology.proxy/service-ref") == ""
    && Value(src.annotations, "synology.proxy/ingress-ref") == "" && src.destination != ""
  }

  lemma BuiltLabels(src: Source)
    ensures BuildLabels(src) == LabelsFor(src)
  {
    if src.FromApp? {
      AimlessHasRef(src);
    }
  }

  lemma AimlessHasRef(src: Source)
    requires src.FromApp?
    ensures AimsAt(src) <==> ServiceRefOf(src).None? && IngressRefOf(src).None? && src.destination != ""
  {
  }

  /** The labels of a new rule, and its owner: an Application in the namespace of the rule. */
  lemma NewRuleLabels(cfg: Setting, rules: Store, src: Source)
    requires !src.deleting && Documented(cfg, rules, src) == Manage && PlaceOf(cfg, src) !in rules
    ensures
      var rule := Reconcile(cfg, rules, src).rules[PlaceOf(cfg, src)];
      && rule.labels == LabelsFor(src)
      && rule.controller ==
           if src.FromApp? && src.namespace == PlaceOf(cfg, src).namespace then Some(src.uid) else None
  {
    DecidesAsDocumented(cfg, rules, src);
    BuiltLabels(src);
    assert KeyOf(cfg, src) == PlaceOf(cfg, src);
  }

  /** The rule bears the marks of the source: its labels, or for an Application its identity as
      the owner. */
  predicate Marked(src: Source, rule: WatchedRule) {
    if src.FromApp? then
      || rule.controller == Some(src.uid)
      || (Value(rule.labels, "proxy.synology.io/managed-by-argo-app") == src.name
          && Value(rule.labels, "proxy.synology.io/managed-by-argo-app-ns") == src.namespace)
    else
      && Value(rule.labels, "proxy.synology.io/managed-by-object") == src.name
      && Value(rule.labels, "proxy.synology.io/managed-by-object-ns") == src.namespace
  }

  /** A reconcile of a source that is to have none removes the rule in its place exactly if it
      bears these marks, and changes nothing else. */
  lemma RemovedRule(cfg: Setting, rules: Store, src: Source)
    requires src.deleting || Documented(cfg, rules, src) == Skip
    ensures
      var k := PlaceOf(cfg, src);
      Reconcile(cfg, rules, src).rules == if k in rules && Marked(src, rules[k]) then rules - {k} else rules
  {
    DecidesAsDocumented(cfg, rules, src);
    assert KeyOf(cfg, src) == PlaceOf(cfg, src);
  }

  // -------------------------------------------------------------- and discovery

  /** The resource that a stored rule is to its own reconciler. */
  function Resource(key: Key, rule: WatchedRule): Rule {
    Rule(key.namespace, key.name, rule.spec, Status([], 0, false, "", 0), false, false)
  }

  /** The cluster can be read, and holds the service, the only one of that name there. */
  predicate HoldsService(c: Backend.Cluster, svc: Backend.Service) {
    && !c.getFails && svc in c.services
    && forall s | s in c.services && s.name == svc.name && s.namespace == svc.namespace :: s == svc
  }

  predicate HoldsIngress(c: Backend.Cluster, ing: Backend.Ingress) {
    && !c.getFails && ing in c.ingresses
    && forall g | g in c.ingresses && g.name == ing.name && g.namespace == ing.namespace :: g == ing
  }

  lemma FindsHeldService(c: Backend.Cluster, svc: Backend.Service)
    requires HoldsService(c, svc)
    ensures Backend.FindService(c.services, svc.name, svc.namespace) == Some(svc)
  {
    Backend.FindServiceMisses(c.services, svc.name, svc.namespace);
  }

  lemma FindsHeldIngress(c: Backend.Cluster, ing: Backend.Ingress)
    requires HoldsIngress(c, ing)
    ensures Backend.FindIngress(c.ingresses, ing.name, ing.namespace) == Some(ing)
  {
    Backend.FindIngressMisses(c.ingresses, ing.name, ing.namespace);
  }

  /** For the rule stored for a Service, discovery finds what that very Service offers, and
      nothing else. */
  lemma ServiceIsFound(cfg: Setting, rules: Store, src: Source, c: Backend.Cluster, svc: Backend.Service,
      host: string, port: int)
    requires Admitted(rules) && !src.deleting && Documented(cfg, rules, src) == Manage && src.FromService?
    requires HoldsService(c, svc) && svc.name == src.name && svc.namespace == src.namespace != ""
    requires host != "" && port != 0
    ensures
      var k := PlaceOf(cfg, src);
      var rules' := Reconcile(cfg, rules, src).rules;
      && k in rules'
      && (Backend.Discover(c, Resource(k, rules'[k])) == Backend.Found(host, port) <==> Backend.Offers(svc, host, port))
  {
    StoredRule(cfg, rules, src);
    FindsHeldService(c, svc);
    var k := PlaceOf(cfg, src);
    var rule := Resource(k, Reconcile(cfg, rules, src).rules[k]);
    Backend.DiscoverExactly(c, rule, host, port);
    assert Backend.Refers(c, rule, svc);
  }

  /** Likewise for an Ingress. */
  lemma IngressIsFound(cfg: Setting, rules: Store, src: Source, c: Backend.Cluster, ing: Backend.Ingress,
      host: string, port: int)
    requires Admitted(rules) && !src.deleting && Documented(cfg, rules, src) == Manage && src.FromIngress?
    requires HoldsIngress(c, ing) && ing.name == src.name && ing.namespace == src.namespace != ""
    requires host != "" && port != 0
    ensures
      var k := PlaceOf(cfg, src);
      var rules' := Reconcile(cfg, rules, src).rules;
      && k in rules'
      && (Backend.Discover(c, Resource(k, rules'[k])) == Backend.Found(host, port) <==>
            Backend.IngressOffers(ing, host, port))
  {
    StoredRule(cfg, rules, src);
    FindsHeldIngress(c, ing);
    var k := PlaceOf(cfg, src);
    var rule := Resource(k, Reconcile(cfg, rules, src).rules[k]);
    Backend.DiscoverExactly(c, rule, host, port);
    assert Backend.RefersIngress(c, rule, ing);
  }

  /** An Application that names neither gets the first load balancer that offers anything in
      the namespace of its rule: which is its destination exactly unless another namespace is
      configured for rules, or it has no destination. */
  lemma AppScansRuleNamespace(cfg: Setting, rules: Store, src: Source, c: Backend.Cluster, host: string, port: int)
    requires Admitted(rules) && !src.deleting && Documented(cfg, rules, src) == Manage && src.FromApp? && !c.listFails
    requires Value(src.annotations, "synology.proxy/service-ref") == ""
    requires Value(src.annotations, "synology.proxy/ingress-ref") == ""
    requires host != "" && port != 0
    ensures
      var k := PlaceOf(cfg, src);
      var rules' := Reconcile(cfg, rules, src).rules;
      && k in rules'
      && (Backend.Discover(c, Resource(k, rules'[k])) == Backend.Found(host, port) <==>
            exists i | 0 <= i < |c.services| ::
              Backend.FirstOffering(c.services, k.namespace, i) && Backend.Offers(c.services[i], host, port))
      && (src.destination != "" ==>
            (k.namespace == src.destination <==> cfg.ruleNamespace == "" || cfg.ruleNamespace == src.destination))
  {
    StoredRule(cfg, rules, src);
    var k := PlaceOf(cfg, src);
    var rule := Resource(k, Reconcile(cfg, rules, src).rules[k]);
    Backend.DiscoverExactly(c, rule, host, port);
  }
}
