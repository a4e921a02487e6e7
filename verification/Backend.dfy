/** Where a rule's traffic goes and under which host name: discovery from the
    cluster. */
module Backend {
  import opened Util
  import opened Rules

  const ANNOTATION_SOURCE_HOST := "synology.proxy/source-host"

  datatype LoadBalancerIngress = LoadBalancerIngress(ip: string, hostname: string)

  datatype Service = Service(
    namespace: string,
    name: string,
    isLoadBalancer: bool,
    lb: seq<LoadBalancerIngress>,
    ports: seq<int>,
    annotations: map<string, string>)

  datatype Ingress = Ingress(
    namespace: string,
    name: string,
    tls: nat,
    lb: seq<LoadBalancerIngress>,
    ruleHosts: seq<string>,
    annotations: map<string, string>)

  /** The cluster as the API server answers about it; reads may fail. */
  datatype Cluster = Cluster(services: seq<Service>, ingresses: seq<Ingress>, getFails: bool, listFails: bool)

  /** An empty host with port 0 means nothing was found. */
  datatype Discovery = Found(host: string, port: int) | DiscoveryFailed

  function GetService(c: Cluster, name: string, namespace: string): (r: Option<Service>)
    ensures r.Some? ==> r.value in c.services && r.value.name == name && r.value.namespace == namespace
  {
    if c.getFails then None else FindService(c.services, name, namespace)
  }

  function FindService(ss: seq<Service>, name: string, namespace: string): (r: Option<Service>)
    ensures r.Some? ==> r.value in ss && r.value.name == name && r.value.namespace == namespace
  {
    if ss == [] then None
    else if ss[0].name == name && ss[0].namespace == namespace then Some(ss[0])
    else FindService(ss[1..], name, namespace)
  }

  function GetIngress(c: Cluster, name: string, namespace: string): (r: Option<Ingress>)
    ensures r.Some? ==> r.value in c.ingresses && r.value.name == name && r.value.namespace == namespace
  {
    if c.getFails then None else FindIngress(c.ingresses, name, namespace)
  }

  function FindIngress(list: seq<Ingress>, name: string, namespace: string): (r: Option<Ingress>)
    ensures r.Some? ==> r.value in list && r.value.name == name && r.value.namespace == namespace
  {
    if list == [] then None
    else if list[0].name == name && list[0].namespace == namespace then Some(list[0])
    else FindIngress(list[1..], name, namespace)
  }

  function Address(i: LoadBalancerIngress): string {
    if i.ip != "" then i.ip else i.hostname
  }

  /** The first load balancer address that is not empty. */
  function LbHost(lb: seq<LoadBalancerIngress>): string {
    if lb == [] then "" else if Address(lb[0]) != "" then Address(lb[0]) else LbHost(lb[1..])
  }

  function FirstPort(ports: seq<int>): int {
    if ports == [] then 0 else if ports[0] != 0 then ports[0] else FirstPort(ports[1..])
  }

  function ExtractFromService(svc: Service): (string, int) {
    var host := LbHost(svc.lb);
    if host == "" then ("", 0) else (host, FirstPort(svc.ports))
  }

  function ExtractFromIngress(ing: Ingress): (string, int) {
    var host := LbHost(ing.lb);
    if host == "" then ("", 0) else (host, if ing.tls > 0 then 443 else 80)
  }

  /** A service that offers both an address and a port. */
  predicate Usable(svc: Service) {
    var (h, p) := ExtractFromService(svc);
    h != "" && p != 0
  }

  predicate Candidate(svc: Service, namespace: string) {
    svc.namespace == namespace && svc.isLoadBalancer && Usable(svc)
  }

  /** The first usable load balancer of the namespace, in list order. */
  function Scan(ss: seq<Service>, namespace: string): (string, int) {
    if ss == [] then ("", 0)
    else if Candidate(ss[0], namespace) then ExtractFromService(ss[0])
    else Scan(ss[1..], namespace)
  }

  function RefNamespace(ref: ObjectRef, namespace: string): string {
    if ref.namespace == "" then namespace else ref.namespace
  }

  function Discover(c: Cluster, rule: Rule): Discovery {
    if rule.spec.serviceRef.Some? then
      var ref := rule.spec.serviceRef.value;
      match GetService(c, ref.name, RefNamespace(ref, rule.namespace))
      case None => DiscoveryFailed
      case Some(svc) =>
        var (h, p) := ExtractFromService(svc);
        if h != "" && p != 0 then Found(h, p) else Found("", 0)
    else if rule.spec.ingressRef.Some? then
      var ref := rule.spec.ingressRef.value;
      match GetIngress(c, ref.name, RefNamespace(ref, rule.namespace))
      case None => DiscoveryFailed
      case Some(ing) =>
        var (h, p) := ExtractFromIngress(ing);
        if h != "" then Found(h, p) else Found("", 0)
    else if c.listFails then DiscoveryFailed
    else
      var (h, p) := Scan(c.services, rule.namespace);
      Found(h, p)
  }

  /** Explicit spec values, completed by discovery where they are missing. */
  function ResolveBackend(c: Cluster, rule: Rule): Option<(string, int)> {
    var host, port := rule.spec.destinationHost, rule.spec.destinationPort;
    if host != "" && port != 0 then Some((host, port))
    else
      match Discover(c, rule)
      case DiscoveryFailed => None
      case Found(h, p) =>
        var host' := if host == "" then h else host;
        var port' := if port == 0 then p else port;
        if host' == "" || port' == 0 then None else Some((host', port'))
  }

  function Annotation(annotations: map<string, string>, key: string): string {
    if key in annotations then annotations[key] else ""
  }

  /** The first host an Ingress declares. */
  function FirstHost(hosts: seq<string>): string {
    if hosts == [] then "" else if hosts[0] != "" then hosts[0] else FirstHost(hosts[1..])
  }

  function UnderDomain(name: string, domain: string): string {
    if domain == "" then "" else name + "." + domain
  }

  function OrElse(a: string, b: string): string {
    if a != "" then a else b
  }

  function HostFromService(svc: Option<Service>, domain: string): string {
    if svc.None? then ""
    else OrElse(Annotation(svc.value.annotations, ANNOTATION_SOURCE_HOST), UnderDomain(svc.value.name, domain))
  }

  function HostFromIngress(ing: Option<Ingress>, domain: string): string {
    if ing.None? then ""
    else OrElse(Annotation(ing.value.annotations, ANNOTATION_SOURCE_HOST),
           OrElse(FirstHost(ing.value.ruleHosts), UnderDomain(ing.value.name, domain)))
  }

  function DeriveSourceHost(c: Cluster, domain: string, rule: Rule): Option<string> {
    var svc := if rule.spec.serviceRef.None? then None
      else GetService(c, rule.spec.serviceRef.value.name, RefNamespace(rule.spec.serviceRef.value, rule.namespace));
    var ing := if rule.spec.ingressRef.None? then None
      else GetIngress(c, rule.spec.ingressRef.value.name, RefNamespace(rule.spec.ingressRef.value, rule.namespace));
    var host := OrElse(rule.spec.sourceHost,
      OrElse(HostFromService(svc, domain),
        OrElse(HostFromIngress(ing, domain), UnderDomain(rule.name, domain))));
    if host == "" then None else Some(host)
  }

  // -------------------------------------------------------------- properties

  /** `i` is the first usable load balancer of the namespace in list order. */
  predicate FirstCandidate(ss: seq<Service>, namespace: string, i: int) {
    && 0 <= i < |ss| && Candidate(ss[i], namespace)
    && forall j | 0 <= j < i :: !Candidate(ss[j], namespace)
  }

  lemma {:induction false} ScanIsFirst(ss: seq<Service>, namespace: string)
    ensures forall i | FirstCandidate(ss, namespace, i) :: Scan(ss, namespace) == ExtractFromService(ss[i])
    ensures (forall s | s in ss :: !Candidate(s, namespace)) ==> Scan(ss, namespace) == ("", 0)
    ensures Scan(ss, namespace) == ("", 0) || (Scan(ss, namespace).0 != "" && Scan(ss, namespace).1 != 0)
  {
    if ss != [] {
      ScanIsFirst(ss[1..], namespace);
      forall i | FirstCandidate(ss, namespace, i)
        ensures Scan(ss, namespace) == ExtractFromService(ss[i])
      {
        if i > 0 {
          assert !Candidate(ss[0], namespace);
          assert FirstCandidate(ss[1..], namespace, i - 1);
        }
      }
    }
  }

  /** The first entry that is not empty. */
  predicate FirstFilled(xs: seq<string>, i: int) {
    && 0 <= i < |xs| && xs[i] != ""
    && forall j | 0 <= j < i :: xs[j] == ""
  }

  /** The addresses of a load balancer; an entry's IP goes before its host name. */
  function Addresses(lb: seq<LoadBalancerIngress>): (r: seq<string>)
    ensures |r| == |lb|
    ensures forall i | 0 <= i < |lb| :: r[i] == if lb[i].ip != "" then lb[i].ip else lb[i].hostname
  {
    seq(|lb|, i requires 0 <= i < |lb| => Address(lb[i]))
  }

  lemma {:induction false} FirstHostIsFirst(hosts: seq<string>)
    ensures forall i | FirstFilled(hosts, i) :: FirstHost(hosts) == hosts[i]
    ensures FirstHost(hosts) == "" || FirstHost(hosts) in hosts
  {
    if hosts != [] {
      FirstHostIsFirst(hosts[1..]);
      forall i | FirstFilled(hosts, i) ensures FirstHost(hosts) == hosts[i] {
        if i > 0 {
          assert hosts[0] == "";
          assert FirstFilled(hosts[1..], i - 1);
        }
      }
    }
  }

  /** The host of a load balancer is its first address that is not empty. */
  lemma {:induction false} LbHostIsFirst(lb: seq<LoadBalancerIngress>)
    ensures LbHost(lb) == FirstHost(Addresses(lb))
  {
    if lb != [] {
      LbHostIsFirst(lb[1..]);
      assert Addresses(lb)[1..] == Addresses(lb[1..]);
    }
  }

  lemma {:induction false} FirstPortIsFirst(ports: seq<int>)
    ensures forall i | 0 <= i < |ports| && ports[i] != 0 && (forall j | 0 <= j < i :: ports[j] == 0) ::
      FirstPort(ports) == ports[i]
    ensures FirstPort(ports) == 0 || FirstPort(ports) in ports
  {
    if ports != [] {
      FirstPortIsFirst(ports[1..]);
      forall i | 0 <= i < |ports| && ports[i] != 0 && (forall j | 0 <= j < i :: ports[j] == 0)
        ensures FirstPort(ports) == ports[i]
      {
        if i > 0 {
          assert ports[1..][i - 1] == ports[i];
        }
      }
    }
  }

  /** What a service offers: its first address and its first port. */
  lemma ServiceOffer(svc: Service, i: int, j: int)
    requires FirstFilled(Addresses(svc.lb), i)
    requires 0 <= j < |svc.ports| && svc.ports[j] != 0 && forall k | 0 <= k < j :: svc.ports[k] == 0
    ensures ExtractFromService(svc) == (Addresses(svc.lb)[i], svc.ports[j])
  {
    LbHostIsFirst(svc.lb);
    FirstHostIsFirst(Addresses(svc.lb));
    FirstPortIsFirst(svc.ports);
  }

  /** The value of the annotation that names a source host, "" without one. */
  function AnnotatedHost(annotations: map<string, string>): string {
    if "synology.proxy/source-host" in annotations then annotations["synology.proxy/source-host"] else ""
  }

  /** Where a source host may come from, in the documented order. */
  function HostSources(c: Cluster, domain: string, rule: Rule): seq<string> {
    [rule.spec.sourceHost]
    + (if rule.spec.serviceRef.None? || c.getFails then [] else
         var ref := rule.spec.serviceRef.value;
         match FindService(c.services, ref.name, if ref.namespace == "" then rule.namespace else ref.namespace)
         case None => []
         case Some(svc) => [AnnotatedHost(svc.annotations), if domain == "" then "" else svc.name + "." + domain])
    + (if rule.spec.ingressRef.None? || c.getFails then [] else
         var ref := rule.spec.ingressRef.value;
         match FindIngress(c.ingresses, ref.name, if ref.namespace == "" then rule.namespace else ref.namespace)
         case None => []
         case Some(ing) =>
           [AnnotatedHost(ing.annotations)] + ing.ruleHosts + [if domain == "" then "" else ing.name + "." + domain])
    + [if domain == "" then "" else rule.name + "." + domain]
  }

  lemma {:induction false} FirstHostConcat(a: seq<string>, b: seq<string>)
    ensures FirstHost(a + b) == OrElse(FirstHost(a), FirstHost(b))
  {
    if a == [] {
      assert a + b == b;
    } else {
      FirstHostConcat(a[1..], b);
      assert (a + b)[1..] == a[1..] + b;
    }
  }

  /** The source host is the first of its possible sources that is not empty, and none
      exactly when all of them are. */
  lemma SourceHostOrder(c: Cluster, domain: string, rule: Rule)
    ensures
      var all := HostSources(c, domain, rule);
      var r := DeriveSourceHost(c, domain, rule);
      && (forall i | FirstFilled(all, i) :: r == Some(all[i]))
      && (r.None? <==> forall h | h in all :: h == "")
  {
    var all := HostSources(c, domain, rule);
    FirstHostIsFirst(all);
    assert DeriveSourceHost(c, domain, rule) == if FirstHost(all) == "" then None else Some(FirstHost(all)) by {
      DeriveIsFirst(c, domain, rule);
    }
    if h :| h in all && h != "" {
      FirstHostFilled(all, h);
    }
  }

  lemma {:induction false} FirstHostFilled(hosts: seq<string>, h: string)
    requires h in hosts && h != ""
    ensures FirstHost(hosts) != ""
  {
    if hosts[0] == "" {
      FirstHostFilled(hosts[1..], h);
    }
  }

  lemma FirstHostOne(a: string)
    ensures FirstHost([a]) == a
  {
    assert FirstHost([a][1..]) == "";
  }

  lemma DeriveIsFirst(c: Cluster, domain: string, rule: Rule)
    ensures DeriveSourceHost(c, domain, rule)
      == var h := FirstHost(HostSources(c, domain, rule)); if h == "" then None else Some(h)
  {
    var svc := if rule.spec.serviceRef.None? then None
      else GetService(c, rule.spec.serviceRef.value.name, RefNamespace(rule.spec.serviceRef.value, rule.namespace));
    var ing := if rule.spec.ingressRef.None? then None
      else GetIngress(c, rule.spec.ingressRef.value.name, RefNamespace(rule.spec.ingressRef.value, rule.namespace));
    var fromService := if svc.None? then []
      else [Annotation(svc.value.annotations, ANNOTATION_SOURCE_HOST), UnderDomain(svc.value.name, domain)];
    var fromIngress := if ing.None? then []
      else
        [Annotation(ing.value.annotations, ANNOTATION_SOURCE_HOST)] + ing.value.ruleHosts
          + [UnderDomain(ing.value.name, domain)];
    ServiceHosts(svc, domain, fromService);
    IngressHosts(ing, domain, fromIngress);
    var own, last := [rule.spec.sourceHost], [UnderDomain(rule.name, domain)];
    assert HostSources(c, domain, rule) == own + fromService + fromIngress + last;
    FirstHostConcat(own + fromService + fromIngress, last);
    FirstHostConcat(own + fromService, fromIngress);
    FirstHostConcat(own, fromService);
    FirstHostOne(rule.spec.sourceHost);
    FirstHostOne(UnderDomain(rule.name, domain));
  }

  lemma ServiceHosts(svc: Option<Service>, domain: string, hosts: seq<string>)
    requires hosts == if svc.None? then []
      else [Annotation(svc.value.annotations, ANNOTATION_SOURCE_HOST), UnderDomain(svc.value.name, domain)]
    ensures FirstHost(hosts) == HostFromService(svc, domain)
  {
    if svc.Some? {
      FirstHostOne(UnderDomain(svc.value.name, domain));
      assert hosts[1..] == [UnderDomain(svc.value.name, domain)];
    }
  }

  lemma IngressHosts(ing: Option<Ingress>, domain: string, hosts: seq<string>)
    requires hosts == if ing.None? then []
      else
        [Annotation(ing.value.annotations, ANNOTATION_SOURCE_HOST)] + ing.value.ruleHosts
          + [UnderDomain(ing.value.name, domain)]
    ensures FirstHost(hosts) == HostFromIngress(ing, domain)
  {
    if ing.Some? {
      var first := [Annotation(ing.value.annotations, ANNOTATION_SOURCE_HOST)];
      var last := [UnderDomain(ing.value.name, domain)];
      FirstHostConcat(first + ing.value.ruleHosts, last);
      FirstHostConcat(first, ing.value.ruleHosts);
      FirstHostOne(first[0]);
      FirstHostOne(last[0]);
    }
  }

  /** Discovery returns a complete pair or nothing. */
  lemma DiscoveryComplete(c: Cluster, rule: Rule)
    ensures
      var d := Discover(c, rule);
      d.Found? ==> (d.host == "" && d.port == 0) || (d.host != "" && d.port != 0)
  {
    ScanIsFirst(c.services, rule.namespace);
  }

  /** A resolved backend is complete; explicit values win; what is missing comes from
      the service reference, else the ingress reference, else the first usable load
      balancer of the namespace; and the backend is unresolved exactly when a missing
      value has no source. */
  lemma BackendResolution(c: Cluster, rule: Rule)
    ensures
      var r := ResolveBackend(c, rule);
      var spec := rule.spec;
      var d := Discover(c, rule);
      && (r.Some? ==>
            && r.value.0 != "" && r.value.1 != 0
            && (spec.destinationHost != "" ==> r.value.0 == spec.destinationHost)
            && (spec.destinationPort != 0 ==> r.value.1 == spec.destinationPort)
            && (spec.destinationHost == "" ==> d == Found(r.value.0, d.port))
            && (spec.destinationPort == 0 ==> d == Found(d.host, r.value.1)))
      && (r.None? <==>
            && (spec.destinationHost == "" || spec.destinationPort == 0)
            && (d.DiscoveryFailed? || d.host == ""))
  {
    DiscoveryComplete(c, rule);
  }

  /** A reference decides alone: the service before the ingress, and neither falls back
      to the scan. */
  lemma ReferenceDecides(c: Cluster, rule: Rule)
    requires !c.getFails
    ensures
      var d := Discover(c, rule);
      && (rule.spec.serviceRef.Some? ==>
            var ref := rule.spec.serviceRef.value;
            var ns := if ref.namespace == "" then rule.namespace else ref.namespace;
            && (d.Found? && d.host != "" ==>
                  exists s | s in c.services :: s.name == ref.name && s.namespace == ns
                    && (d.host, d.port) == ExtractFromService(s))
            && (d.DiscoveryFailed? <==> forall s | s in c.services :: s.name == ref.name ==> s.namespace != ns))
      && (rule.spec.serviceRef.None? && rule.spec.ingressRef.Some? ==>
            var ref := rule.spec.ingressRef.value;
            var ns := if ref.namespace == "" then rule.namespace else ref.namespace;
            && (d.Found? && d.host != "" ==>
                  exists g | g in c.ingresses :: g.name == ref.name && g.namespace == ns
                    && (d.host, d.port) == ExtractFromIngress(g))
            && (d.DiscoveryFailed? <==> forall g | g in c.ingresses :: g.name == ref.name ==> g.namespace != ns))
  {
    if rule.spec.serviceRef.Some? {
      var ref := rule.spec.serviceRef.value;
      FindServiceMisses(c.services, ref.name, RefNamespace(ref, rule.namespace));
    } else if rule.spec.ingressRef.Some? {
      var ref := rule.spec.ingressRef.value;
      FindIngressMisses(c.ingresses, ref.name, RefNamespace(ref, rule.namespace));
    }
  }

  lemma {:induction false} FindServiceMisses(ss: seq<Service>, name: string, namespace: string)
    ensures FindService(ss, name, namespace).None? <==>
      forall s | s in ss :: s.name == name ==> s.namespace != namespace
  {
    if ss != [] {
      FindServiceMisses(ss[1..], name, namespace);
    }
  }

  lemma {:induction false} FindIngressMisses(list: seq<Ingress>, name: string, namespace: string)
    ensures FindIngress(list, name, namespace).None? <==>
      forall g | g in list :: g.name == name ==> g.namespace != namespace
  {
    if list != [] {
      FindIngressMisses(list[1..], name, namespace);
    }
  }

  // ---------------------------------------------------- what is found, exactly

  predicate FirstOpen(ports: seq<int>, j: int) {
    0 <= j < |ports| && ports[j] != 0 && forall k | 0 <= k < j :: ports[k] == 0
  }

  /** The first address of a service that is not empty, and its first port that is not 0. */
  predicate Offers(svc: Service, host: string, port: int) {
    && (exists i | 0 <= i < |svc.lb| :: FirstFilled(Addresses(svc.lb), i) && host == Addresses(svc.lb)[i])
    && (exists j | 0 <= j < |svc.ports| :: FirstOpen(svc.ports, j) && port == svc.ports[j])
  }

  /** The first address of an Ingress, and 443 if it has a TLS entry, else 80. */
  predicate IngressOffers(ing: Ingress, host: string, port: int) {
    && (exists i | 0 <= i < |ing.lb| :: FirstFilled(Addresses(ing.lb), i) && host == Addresses(ing.lb)[i])
    && port == if ing.tls > 0 then 443 else 80
  }

  lemma {:induction false} SomeFilled(hosts: seq<string>) returns (i: nat)
    requires FirstHost(hosts) != ""
    ensures FirstFilled(hosts, i) && FirstHost(hosts) == hosts[i]
  {
    if hosts[0] != "" {
      i := 0;
    } else {
      var k := SomeFilled(hosts[1..]);
      i := k + 1;
      assert forall j | 0 < j < i :: hosts[j] == hosts[1..][j - 1];
    }
  }

  lemma {:induction false} SomeOpen(ports: seq<int>) returns (j: nat)
    requires FirstPort(ports) != 0
    ensures FirstOpen(ports, j) && FirstPort(ports) == ports[j]
  {
    if ports[0] != 0 {
      j := 0;
    } else {
      var k := SomeOpen(ports[1..]);
      j := k + 1;
      assert forall n | 0 < n < j :: ports[n] == ports[1..][n - 1];
    }
  }

  lemma AddressExactly(lb: seq<LoadBalancerIngress>, host: string)
    requires host != ""
    ensures LbHost(lb) == host <==>
      exists i | 0 <= i < |lb| :: FirstFilled(Addresses(lb), i) && host == Addresses(lb)[i]
  {
    LbHostIsFirst(lb);
    FirstHostIsFirst(Addresses(lb));
    if LbHost(lb) == host {
      var i := SomeFilled(Addresses(lb));
    }
  }

  lemma OffersExactly(svc: Service, host: string, port: int)
    requires host != "" && port != 0
    ensures ExtractFromService(svc) == (host, port) <==> Offers(svc, host, port)
  {
    AddressExactly(svc.lb, host);
    FirstPortIsFirst(svc.ports);
    if FirstPort(svc.ports) == port {
      var j := SomeOpen(svc.ports);
    }
  }

  lemma IngressOffersExactly(ing: Ingress, host: string, port: int)
    requires host != ""
    ensures ExtractFromIngress(ing) == (host, port) <==> IngressOffers(ing, host, port)
  {
    AddressExactly(ing.lb, host);
  }

  lemma UsableOffers(svc: Service)
    ensures Usable(svc) <==> exists host, port | host != "" && port != 0 :: Offers(svc, host, port)
    ensures forall host, port | Offers(svc, host, port) :: host != "" && port != 0
  {
    var (h, p) := ExtractFromService(svc);
    if Usable(svc) {
      OffersExactly(svc, h, p);
    }
    if host, port :| host != "" && port != 0 && Offers(svc, host, port) {
      OffersExactly(svc, host, port);
    }
  }

  /** `i` is the first load balancer service of the namespace that offers anything. */
  ghost predicate FirstOffering(ss: seq<Service>, namespace: string, i: nat)
    requires i < |ss|
  {
    && ss[i].namespace == namespace && ss[i].isLoadBalancer && (exists h, p :: Offers(ss[i], h, p))
    && forall j | 0 <= j < i && ss[j].namespace == namespace && ss[j].isLoadBalancer ::
         !exists h, p :: Offers(ss[j], h, p)
  }

  lemma OfferingIsCandidate(ss: seq<Service>, namespace: string, i: nat)
    requires i < |ss|
    ensures FirstOffering(ss, namespace, i) <==> FirstCandidate(ss, namespace, i)
  {
    forall j | 0 <= j <= i ensures Usable(ss[j]) <==> exists h, p :: Offers(ss[j], h, p) {
      UsableOffers(ss[j]);
    }
  }

  lemma {:induction false} SomeCandidate(ss: seq<Service>, namespace: string) returns (i: nat)
    requires Scan(ss, namespace).0 != ""
    ensures FirstCandidate(ss, namespace, i) && Scan(ss, namespace) == ExtractFromService(ss[i])
  {
    if Candidate(ss[0], namespace) {
      i := 0;
    } else {
      var k := SomeCandidate(ss[1..], namespace);
      i := k + 1;
      assert forall j | 0 < j < i :: ss[j] == ss[1..][j - 1];
    }
  }

  lemma ScanExactly(ss: seq<Service>, namespace: string, host: string, port: int)
    requires host != "" && port != 0
    ensures Scan(ss, namespace) == (host, port) <==>
      exists i | 0 <= i < |ss| :: FirstOffering(ss, namespace, i) && Offers(ss[i], host, port)
  {
    ScanIsFirst(ss, namespace);
    if Scan(ss, namespace) == (host, port) {
      var i := SomeCandidate(ss, namespace);
      OfferingIsCandidate(ss, namespace, i);
      OffersExactly(ss[i], host, port);
    }
    if i :| 0 <= i < |ss| && FirstOffering(ss, namespace, i) && Offers(ss[i], host, port) {
      OfferingIsCandidate(ss, namespace, i);
      OffersExactly(ss[i], host, port);
    }
  }

  /** `s` is the service, and `g` the Ingress, that a reference stands for: its namespace is
      that of the rule unless the reference has one. */
  predicate Refers(c: Cluster, rule: Rule, s: Service)
    requires rule.spec.serviceRef.Some?
  {
    var ref := rule.spec.serviceRef.value;
    var namespace := if ref.namespace == "" then rule.namespace else ref.namespace;
    !c.getFails && FindService(c.services, ref.name, namespace) == Some(s)
  }

  predicate RefersIngress(c: Cluster, rule: Rule, g: Ingress)
    requires rule.spec.ingressRef.Some?
  {
    var ref := rule.spec.ingressRef.value;
    var namespace := if ref.namespace == "" then rule.namespace else ref.namespace;
    !c.getFails && FindIngress(c.ingresses, ref.name, namespace) == Some(g)
  }

  /** What discovery may find for a rule: what the referenced service offers; without such a
      reference, what the referenced Ingress offers; without either, what the first load
      balancer of its namespace offers that offers anything. */
  ghost predicate Discoverable(c: Cluster, rule: Rule, host: string, port: int) {
    if rule.spec.serviceRef.Some? then exists s | s in c.services :: Refers(c, rule, s) && Offers(s, host, port)
    else if rule.spec.ingressRef.Some? then
      exists g | g in c.ingresses :: RefersIngress(c, rule, g) && IngressOffers(g, host, port)
    else
      !c.listFails
      && exists i | 0 <= i < |c.services| ::
           FirstOffering(c.services, rule.namespace, i) && Offers(c.services[i], host, port)
  }

  /** Discovery finds it, and nothing else. */
  lemma DiscoverExactly(c: Cluster, rule: Rule, host: string, port: int)
    requires host != "" && port != 0
    ensures Discover(c, rule) == Found(host, port) <==> Discoverable(c, rule, host, port)
  {
    if rule.spec.serviceRef.Some? {
      var ref := rule.spec.serviceRef.value;
      var svc := GetService(c, ref.name, RefNamespace(ref, rule.namespace));
      if svc.Some? {
        OffersExactly(svc.value, host, port);
      }
    } else if rule.spec.ingressRef.Some? {
      var ref := rule.spec.ingressRef.value;
      var ing := GetIngress(c, ref.name, RefNamespace(ref, rule.namespace));
      if ing.Some? {
        IngressOffersExactly(ing.value, host, port);
      }
    } else {
      ScanExactly(c.services, rule.namespace, host, port);
    }
  }

  lemma DiscoverySource(c: Cluster, rule: Rule, i: int)
    requires rule.spec.serviceRef.None? && rule.spec.ingressRef.None? && !c.listFails
    requires FirstCandidate(c.services, rule.namespace, i)
    ensures Discover(c, rule) == Found(ExtractFromService(c.services[i]).0, ExtractFromService(c.services[i]).1)
  {
    ScanIsFirst(c.services, rule.namespace);
  }

  // ----------------------------------------------------------------- methods

  method DoExtractFromService(svc: Service) returns (host: string, port: int)
    ensures (host, port) == ExtractFromService(svc)
  {
    host, port := "", 0;
    var i := 0;
    while i < |svc.lb| && host == ""
      invariant 0 <= i <= |svc.lb|
      invariant LbHost(svc.lb) == if host != "" then host else LbHost(svc.lb[i..])
    {
      assert svc.lb[i..][1..] == svc.lb[i + 1..];
      if svc.lb[i].ip != "" {
        host := svc.lb[i].ip;
      } else if svc.lb[i].hostname != "" {
        host := svc.lb[i].hostname;
      }
      i := i + 1;
    }
    if host == "" {
      return "", 0;
    }
    var k := 0;
    while k < |svc.ports|
      invariant 0 <= k <= |svc.ports|
      invariant FirstPort(svc.ports) == FirstPort(svc.ports[k..])
    {
      assert svc.ports[k..][1..] == svc.ports[k + 1..];
      if svc.ports[k] != 0 {
        return host, svc.ports[k];
      }
      k := k + 1;
    }
  }

  method DoExtractFromIngress(ing: Ingress) returns (host: string, port: int)
    ensures (host, port) == ExtractFromIngress(ing)
  {
    port := 80;
    if ing.tls > 0 {
      port := 443;
    }
    var i := 0;
    while i < |ing.lb|
      invariant 0 <= i <= |ing.lb|
      invariant LbHost(ing.lb) == LbHost(ing.lb[i..])
    {
      assert ing.lb[i..][1..] == ing.lb[i + 1..];
      if ing.lb[i].ip != "" {
        return ing.lb[i].ip, port;
      }
      if ing.lb[i].hostname != "" {
        return ing.lb[i].hostname, port;
      }
      i := i + 1;
    }
    return "", 0;
  }

  method DoDiscover(c: Cluster, rule: Rule) returns (d: Discovery)
    ensures d == Discover(c, rule)
  {
    if rule.spec.serviceRef.Some? {
      var ref := rule.spec.serviceRef.value;
      var svc := GetService(c, ref.name, RefNamespace(ref, rule.namespace));
      if svc.None? {
        return DiscoveryFailed;
      }
      var h, p := DoExtractFromService(svc.value);
      return if h != "" && p != 0 then Found(h, p) else Found("", 0);
    }
    if rule.spec.ingressRef.Some? {
      var ref := rule.spec.ingressRef.value;
      var ing := GetIngress(c, ref.name, RefNamespace(ref, rule.namespace));
      if ing.None? {
        return DiscoveryFailed;
      }
      var h, p := DoExtractFromIngress(ing.value);
      return if h != "" then Found(h, p) else Found("", 0);
    }
    if c.listFails {
      return DiscoveryFailed;
    }
    var i := 0;
    while i < |c.services|
      invariant 0 <= i <= |c.services|
      invariant Scan(c.services, rule.namespace) == Scan(c.services[i..], rule.namespace)
    {
      var svc := c.services[i];
      assert c.services[i..][1..] == c.services[i + 1..];
      if svc.namespace == rule.namespace && svc.isLoadBalancer {
        var h, p := DoExtractFromService(svc);
        if h != "" && p != 0 {
          return Found(h, p);
        }
      }
      i := i + 1;
    }
    d := Found("", 0);
  }

  method DoDeriveSourceHost(c: Cluster, domain: string, rule: Rule) returns (r: Option<string>)
    ensures r == DeriveSourceHost(c, domain, rule)
  {
    if rule.spec.sourceHost != "" {
      return Some(rule.spec.sourceHost);
    }
    if rule.spec.serviceRef.Some? {
      var ref := rule.spec.serviceRef.value;
      var svc := GetService(c, ref.name, RefNamespace(ref, rule.namespace));
      if svc.Some? {
        var h := Annotation(svc.value.annotations, ANNOTATION_SOURCE_HOST);
        if h != "" {
          return Some(h);
        }
        if domain != "" {
          return Some(svc.value.name + "." + domain);
        }
      }
    }
    if rule.spec.ingressRef.Some? {
      var ref := rule.spec.ingressRef.value;
      var ing := GetIngress(c, ref.name, RefNamespace(ref, rule.namespace));
      if ing.Some? {
        var h := Annotation(ing.value.annotations, ANNOTATION_SOURCE_HOST);
        if h != "" {
          return Some(h);
        }
        var hosts := ing.value.ruleHosts;
        var i := 0;
        while i < |hosts|
          invariant 0 <= i <= |hosts|
          invariant FirstHost(hosts) == FirstHost(hosts[i..])
        {
          assert hosts[i..][1..] == hosts[i + 1..];
          if hosts[i] != "" {
            return Some(hosts[i]);
          }
          i := i + 1;
        }
        if domain != "" {
          return Some(ing.value.name + "." + domain);
        }
      }
    }
    if domain != "" {
      return Some(rule.name + "." + domain);
    }
    r := None;
  }
}
