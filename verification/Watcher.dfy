/** Names of automatic rules: two dashes between namespace and object name. */
module Naming {
  import opened Util

  function RuleNameForObject(name: string, namespace: string): string {
    namespace + "--" + name
  }

  predicate DashesAt(s: string, i: int) {
    0 <= i < |s| - 1 && s[i] == '-' && s[i + 1] == '-'
  }

  /** Where two dashes first stand together; the length of the text if nowhere. */
  function FirstDashes(s: string): (i: nat)
    ensures i < |s| ==> DashesAt(s, i)
    ensures forall j | 0 <= j < i :: !DashesAt(s, j)
    ensures i <= |s|
  {
    if s == "" then 0
    else if DashesAt(s, 0) then 0
    else
      var i := FirstDashes(s[1..]);
      assert forall j | 0 < j :: DashesAt(s, j) <==> DashesAt(s[1..], j - 1);
      1 + i
  }

  /** Reads a rule name back: the namespace ends where two dashes first stand together. */
  function ParseRuleName(s: string): Option<(string, string)> {
    var i := FirstDashes(s);
    if i < |s| then Some((s[..i], s[i + 2..])) else None
  }

  predicate PlainNamespace(namespace: string) {
    && (forall i | 0 <= i < |namespace| :: !DashesAt(namespace, i))
    && (namespace == "" || namespace[|namespace| - 1] != '-')
  }

  /** A rule name can be read back exactly when the namespace has no two dashes in a row
      and does not end in one; the object name is free. */
  lemma RuleNameDecodes(name: string, namespace: string)
    ensures ParseRuleName(RuleNameForObject(name, namespace)) == Some((namespace, name))
       <==> PlainNamespace(namespace)
  {
    var s := RuleNameForObject(name, namespace);
    var n := |namespace|;
    assert DashesAt(s, n);
    assert s[..n] == namespace && s[n + 2..] == name;
    assert forall i | 0 <= i < n - 1 :: DashesAt(s, i) <==> DashesAt(namespace, i);
    assert n > 0 ==> (DashesAt(s, n - 1) <==> namespace[n - 1] == '-');
    if PlainNamespace(namespace) {
      assert FirstDashes(s) == n;
    } else {
      assert exists i | 0 <= i < n :: DashesAt(s, i);
      assert FirstDashes(s) < n;
    }
  }

  /** Two namespaces can give objects one name exactly when the one, with its dashes, is how
      the other begins. */
  lemma NamesMeetExactly(a: string, b: string)
    ensures (exists m, n | m != "" && n != "" :: RuleNameForObject(m, a) == RuleNameForObject(n, b))
       <==> (a + "--" <= b + "--" || b + "--" <= a + "--")
  {
    if m, n :| m != "" && n != "" && RuleNameForObject(m, a) == RuleNameForObject(n, b) {
      BeginsBoth(a + "--", m, b + "--", n);
    }
    if a + "--" <= b + "--" {
      var m := NamesMeet(a, b, "x");
    }
    if b + "--" <= a + "--" {
      var m := NamesMeet(b, a, "x");
    }
  }

  lemma BeginsBoth(a: string, m: string, b: string, n: string)
    requires a + m == b + n
    ensures a <= b || b <= a
  {
    var s := a + m;
    assert s[..|a|] == a && s[..|b|] == b;
    if |a| <= |b| {
      assert b[..|a|] == s[..|b|][..|a|] == s[..|a|];
    } else {
      assert a[..|b|] == s[..|a|][..|b|] == s[..|b|];
    }
  }

  /** Then every object of the longer namespace has a namesake in the shorter. */
  lemma NamesMeet(a: string, b: string, name: string) returns (m: string)
    requires a + "--" <= b + "--" && name != ""
    ensures m != "" && RuleNameForObject(m, a) == RuleNameForObject(name, b)
  {
    m := (b + "--")[|a + "--"|..] + name;
    assert b + "--" == (a + "--") + (b + "--")[|a + "--"|..];
    assert RuleNameForObject(m, a) == (a + "--") + m;
  }

  lemma BegunIsNotPlain(a: string, b: string)
    requires a + "--" <= b + "--" && |a| < |b|
    ensures !PlainNamespace(b)
  {
    var s := b + "--";
    assert s[..|a| + 2] == a + "--";
    assert s[|a|] == b[|a|] == '-' && s[|a| + 1] == '-';
    if |a| < |b| - 1 {
      assert DashesAt(b, |a|);
    }
  }

  /** A namespace that can be read back begins with no other one this way. */
  lemma PlainBeginsWithNone(a: string, b: string)
    requires PlainNamespace(b) && a + "--" <= b + "--"
    ensures a == b
  {
    if |a| < |b| {
      BegunIsNotPlain(a, b);
    } else {
      assert (b + "--")[..|a|] == b && (a + "--")[..|a|] == a;
    }
  }

  lemma SameNameSameObject(name1: string, namespace1: string, name2: string, namespace2: string)
    requires PlainNamespace(namespace1) && PlainNamespace(namespace2)
    requires RuleNameForObject(name1, namespace1) == RuleNameForObject(name2, namespace2)
    ensures name1 == name2 && namespace1 == namespace2
  {
    var a, b := namespace1 + "--", namespace2 + "--";
    BeginsBoth(a, name1, b, name2);
    if a <= b {
      PlainBeginsWithNone(namespace1, namespace2);
    } else {
      PlainBeginsWithNone(namespace2, namespace1);
    }
    assert (a + name1)[|a|..] == name1 && (b + name2)[|a|..] == name2;
  }

  /** Namespaces without two dashes in a row or one at the end: different objects get
      different names. */
  lemma RuleNamesDiffer(name1: string, namespace1: string, name2: string, namespace2: string)
    requires PlainNamespace(namespace1) && PlainNamespace(namespace2)
    requires name1 != name2 || namespace1 != namespace2
    ensures RuleNameForObject(name1, namespace1) != RuleNameForObject(name2, namespace2)
  {
    if RuleNameForObject(name1, namespace1) == RuleNameForObject(name2, namespace2) {
      SameNameSameObject(name1, namespace1, name2, namespace2);
    }
  }
}

/** The watchers of Services, Ingresses and Argo CD Applications: which objects get a
    rule, and what that rule says. */
module Watcher {
  import opened Util
  import opened Rules
  import opened Naming
  import Backend

  const ENABLED := "synology.proxy/enabled"
  const SOURCE_HOST := "synology.proxy/source-host"
  const ACL_PROFILE := "synology.proxy/acl-profile"
  const DEST_PROTOCOL := "synology.proxy/destination-protocol"
  const ASSIGN_CERT := "synology.proxy/assign-certificate"
  const SERVICE_REF := "synology.proxy/service-ref"
  const INGRESS_REF := "synology.proxy/ingress-ref"
  const DEST_HOST := "synology.proxy/destination-host"
  const DEST_PORT := "synology.proxy/destination-port"
  const AUTO_DISCOVERY := "synology.proxy/auto-discovery"

  const MANAGED_BY := "app.kubernetes.io/managed-by"
  const OPERATOR := "synology-proxy-operator"
  const BY_OBJECT := "proxy.synology.io/managed-by-object"
  const BY_OBJECT_NS := "proxy.synology.io/managed-by-object-ns"
  const BY_APP := "proxy.synology.io/managed-by-argo-app"
  const BY_APP_NS := "proxy.synology.io/managed-by-argo-app-ns"
  const TARGET_NS := "proxy.synology.io/target-namespace"

  type Annotations = map<string, string>

  /** An object that may want a rule. `uid` identifies an Application as an owner. */
  datatype Source =
    | FromService(name: string, namespace: string, annotations: Annotations, deleting: bool)
    | FromIngress(name: string, namespace: string, annotations: Annotations, deleting: bool)
    | FromApp(name: string, namespace: string, annotations: Annotations, deleting: bool,
        uid: string, destination: string)

  datatype Key = Key(namespace: string, name: string)

  /** A stored rule as the watchers see it. */
  datatype WatchedRule = WatchedRule(labels: map<string, string>, controller: Option<string>, spec: Spec)

  type Store = map<Key, WatchedRule>

  /** `glob` says which namespaces the watch pattern matches; `namespaces` holds the
      annotations of the namespaces that can be read. */
  datatype Setting = Setting(
    ruleNamespace: string,
    disableIfManual: bool,
    defaultDomain: string,
    glob: string -> bool,
    namespaces: map<string, Annotations>)

  function Get(annotations: Annotations, key: string): string {
    Backend.Annotation(annotations, key)
  }

  // --------------------------------------------------------------- decisions

  predicate IsEnabled(annotations: Annotations) {
    ToLower(Get(annotations, ENABLED)) == "true"
  }

  predicate IsDisabled(annotations: Annotations) {
    ToLower(Get(annotations, ENABLED)) == "false"
  }

  predicate AutoDiscovered(cfg: Setting, namespace: string) {
    var annotations := if namespace in cfg.namespaces then cfg.namespaces[namespace] else map[];
    cfg.glob(namespace) && ToLower(Get(annotations, AUTO_DISCOVERY)) != "false"
  }

  predicate IsResourceEnabled(cfg: Setting, namespace: string, annotations: Annotations) {
    if IsDisabled(annotations) then false
    else if IsEnabled(annotations) then true
    else AutoDiscovered(cfg, namespace)
  }

  predicate IsAuto(rule: WatchedRule) {
    Get(rule.labels, MANAGED_BY) == OPERATOR
  }

  predicate HasManual(rules: Store, namespace: string) {
    exists k | k in rules :: k.namespace == namespace && !IsAuto(rules[k])
  }

  /** The namespace whose manual rules count for a source. */
  function CheckNamespace(src: Source): string {
    if src.FromApp? && src.destination != "" then src.destination else src.namespace
  }

  /** Whether a reconcile of the source keeps a rule for it. */
  predicate Manages(cfg: Setting, rules: Store, src: Source) {
    if src.FromApp? then
      if IsDisabled(src.annotations) || (!IsEnabled(src.annotations) && !AutoDiscovered(cfg, src.namespace)) then false
      else if src.deleting then false
      else !(cfg.disableIfManual && !IsEnabled(src.annotations) && HasManual(rules, CheckNamespace(src)))
    else
      if src.deleting || !IsResourceEnabled(cfg, src.namespace, src.annotations) then false
      else !(cfg.disableIfManual && !IsEnabled(src.annotations) && HasManual(rules, CheckNamespace(src)))
  }

  /** The text is `word`, in capitals or not. */
  predicate Spells(s: string, word: string) {
    |s| == |word| && forall i | 0 <= i < |s| :: s[i] == word[i] || ('A' <= s[i] <= 'Z' && s[i] - 'A' + 'a' == word[i])
  }

  /** The annotation has the value `word`, in capitals or not. */
  predicate Says(annotations: Annotations, key: string, word: string) {
    key in annotations && Spells(annotations[key], word)
  }

  /** A rule in the namespace that is not labelled as made by the operator. */
  predicate ManualIn(rules: Store, namespace: string) {
    exists k | k in rules :: k.namespace == namespace
      && !("app.kubernetes.io/managed-by" in rules[k].labels
           && rules[k].labels["app.kubernetes.io/managed-by"] == "synology-proxy-operator")
  }

  /** The documented decision order, from the first rule that applies. Manual rules count in
      the namespace of the source, for an Application in its destination if it has one. */
  datatype Verdict = Skip | Manage

  function Documented(cfg: Setting, rules: Store, src: Source): Verdict {
    var optedOut := src.namespace in cfg.namespaces
      && Says(cfg.namespaces[src.namespace], "synology.proxy/auto-discovery", "false");
    var beside := if src.FromApp? && src.destination != "" then src.destination else src.namespace;
    if Says(src.annotations, "synology.proxy/enabled", "false") then Skip
    else if Says(src.annotations, "synology.proxy/enabled", "true") then Manage
    else if cfg.glob(src.namespace) && !optedOut && (!cfg.disableIfManual || !ManualIn(rules, beside)) then Manage
    else Skip
  }

  lemma LowerSpells(s: string, word: string)
    requires word == "true" || word == "false"
    ensures ToLower(s) == word <==> Spells(s, word)
  {
    var t := ToLower(s);
    assert |t| == |s| && forall i | 0 <= i < |s| :: t[i] == LowerChar(s[i]);
    assert forall i | 0 <= i < |word| :: 'a' <= word[i] <= 'z';
    if Spells(s, word) {
      assert t == word;
    }
  }

  lemma LowerSays(annotations: Annotations, key: string, word: string)
    requires word == "true" || word == "false"
    ensures ToLower(Get(annotations, key)) == word <==> Says(annotations, key, word)
  {
    LowerSpells(Get(annotations, key), word);
  }

  /** Both watchers decide as documented, for live objects; one being deleted is never
      managed. */
  lemma DecidesAsDocumented(cfg: Setting, rules: Store, src: Source)
    ensures Manages(cfg, rules, src) <==> !src.deleting && Documented(cfg, rules, src) == Manage
  {
    LowerSays(src.annotations, ENABLED, "true");
    LowerSays(src.annotations, ENABLED, "false");
    if src.namespace in cfg.namespaces {
      LowerSays(cfg.namespaces[src.namespace], AUTO_DISCOVERY, "false");
    }
    assert !(IsEnabled(src.annotations) && IsDisabled(src.annotations)) by {
      assert "true" != "false";
    }
    ManualIsManual(rules, CheckNamespace(src));
  }

  lemma ManualIsManual(rules: Store, namespace: string)
    ensures HasManual(rules, namespace) <==> ManualIn(rules, namespace)
  {
  }

  lemma SameDocumented(cfg: Setting, rules: Store, rules': Store, src: Source)
    requires forall namespace :: HasManual(rules', namespace) == HasManual(rules, namespace)
    ensures Documented(cfg, rules', src) == Documented(cfg, rules, src)
  {
    ManualIsManual(rules, CheckNamespace(src));
    ManualIsManual(rules', CheckNamespace(src));
  }

  // --------------------------------------------------------------- the rule

  function RuleNamespaceFor(cfg: Setting, src: Source): string {
    if cfg.ruleNamespace != "" then cfg.ruleNamespace else CheckNamespace(src)
  }

  function KeyOf(cfg: Setting, src: Source): Key {
    Key(RuleNamespaceFor(cfg, src),
      if src.FromApp? then src.name else RuleNameForObject(src.name, src.namespace))
  }

  function Protocol(annotations: Annotations): string {
    Backend.OrElse(Get(annotations, DEST_PROTOCOL), "http")
  }

  function AssignsCert(annotations: Annotations): bool {
    ToLower(Get(annotations, ASSIGN_CERT)) != "false"
  }

  const MAX_INT64 := 0x7FFF_FFFF_FFFF_FFFF

  predicate IsDigit(c: char) {
    '0' <= c <= '9'
  }

  /** The value of the digits a text starts with, after `seen`; `None` if there is no digit. */
  function Digits(s: string, seen: Option<nat>): Option<nat> {
    if s == "" || !IsDigit(s[0]) then seen
    else
      var d := (s[0] - '0') as nat;
      Digits(s[1..], Some(if seen.Some? then 10 * seen.value + d else d))
  }

  function SkipBlanks(s: string): string {
    if s != "" && (s[0] == ' ' || s[0] == '\t') then SkipBlanks(s[1..]) else s
  }

  /** A decimal number at the start of a text; what follows it is ignored. */
  function ScanInt(text: string): Option<int> {
    var s := SkipBlanks(text);
    var negative := s != "" && s[0] == '-';
    var digits := Digits(if s != "" && (s[0] == '-' || s[0] == '+') then s[1..] else s, None);
    if digits.None? then None
    else
      var n: int := if negative then -(digits.value as int) else digits.value;
      if -MAX_INT64 - 1 <= n <= MAX_INT64 then Some(n) else None
  }

  predicate AllDigits(s: string) {
    forall c | c in s :: IsDigit(c)
  }

  lemma {:induction false} DigitsSnoc(s: string, d: nat, seen: Option<nat>)
    requires AllDigits(s) && d < 10
    ensures
      var before := Digits(s, seen);
      Digits(s + [Digit(d)], seen) == Some(d + if before.Some? then 10 * before.value else 0)
  {
    if s == "" {
      assert (s + [Digit(d)])[1..] == "";
    } else {
      assert (s + [Digit(d)])[1..] == s[1..] + [Digit(d)];
      assert s[0] in s;
      var first := (s[0] - '0') as nat;
      DigitsSnoc(s[1..], d, Some(if seen.Some? then 10 * seen.value + first else first));
    }
  }

  lemma {:induction false} DigitsDecimal(n: nat)
    ensures AllDigits(DecimalNat(n)) && DecimalNat(n) != "" && Digits(DecimalNat(n), None) == Some(n)
  {
    if n < 10 {
      DigitsSnoc("", n, None);
      assert "" + [Digit(n)] == DecimalNat(n);
    } else {
      DigitsDecimal(n / 10);
      DigitsSnoc(DecimalNat(n / 10), n % 10, None);
    }
  }

  /** A port written in decimal is read back, as far as a 64-bit integer goes. */
  lemma PortRoundTrip(n: int)
    ensures ScanInt(Decimal(n)) ==
      if -0x8000_0000_0000_0000 <= n < 0x8000_0000_0000_0000 then Some(n) else None
  {
    var digits := DecimalNat(if n < 0 then -n else n);
    DigitsDecimal(if n < 0 then -n else n);
    assert digits[0] in digits;
    assert ("-" + digits)[1..] == digits;
  }

  lemma {:induction false} DigitsStop(s: string, tail: string, seen: Option<nat>)
    requires AllDigits(s) && (tail == "" || !IsDigit(tail[0]))
    ensures Digits(s + tail, seen) == Digits(s, seen)
  {
    if s == "" {
      assert s + tail == tail;
    } else {
      assert s[0] in s && (s + tail)[1..] == s[1..] + tail;
      DigitsStop(s[1..], tail, Some(if seen.Some? then 10 * seen.value + (s[0] - '0') as nat else (s[0] - '0') as nat));
    }
  }

  lemma {:induction false} BlanksSkipped(blanks: string, s: string)
    requires forall i | 0 <= i < |blanks| :: blanks[i] == ' ' || blanks[i] == '\t'
    ensures SkipBlanks(blanks + s) == SkipBlanks(s)
  {
    if blanks == "" {
      assert blanks + s == s;
    } else {
      assert (blanks + s)[1..] == blanks[1..] + s;
      BlanksSkipped(blanks[1..], s);
    }
  }

  /** Blanks before a port, and whatever follows it that does not begin with a digit, do not
      matter. */
  lemma PortAmid(blanks: string, n: int, tail: string)
    requires forall i | 0 <= i < |blanks| :: blanks[i] == ' ' || blanks[i] == '\t'
    requires tail == "" || !('0' <= tail[0] <= '9')
    ensures ScanInt(blanks + (Decimal(n) + tail)) == if -MAX_INT64 - 1 <= n <= MAX_INT64 then Some(n) else None
  {
    var digits := DecimalNat(if n < 0 then -n else n);
    DigitsDecimal(if n < 0 then -n else n);
    assert digits[0] in digits;
    BlanksSkipped(blanks, Decimal(n) + tail);
    DigitsStop(digits, tail, None);
    assert ("-" + digits + tail)[1..] == digits + tail;
  }

  /** "namespace/name", or a name in the given namespace. */
  function ParseRef(v: string, namespace: string): ObjectRef {
    var i := Slash(v);
    if i < |v| then ObjectRef(v[i + 1..], v[..i]) else ObjectRef(v, namespace)
  }

  function Slash(s: string): (i: nat)
    ensures i <= |s| && forall j | 0 <= j < i :: s[j] != '/'
    ensures i < |s| ==> s[i] == '/'
  {
    if s == "" || s[0] == '/' then 0
    else
      1 + Slash(s[1..])
  }

  /** A reference written out is read back. */
  lemma RefRoundTrip(name: string, namespace: string, other: string)
    ensures ParseRef(namespace + "/" + name, other) == ObjectRef(name, namespace) <==> '/' !in namespace
  {
    var v := namespace + "/" + name;
    var i := Slash(v);
    assert v[|namespace|] == '/' && v[..|namespace|] == namespace && v[|namespace| + 1..] == name;
    assert forall j | 0 <= j < |namespace| :: v[j] == namespace[j];
    assert i == |namespace| ==> v[..i] == namespace;
  }

  function ServiceRefOf(src: Source): Option<ObjectRef> {
    match src
    case FromService(name, namespace, _, _) => Some(ObjectRef(name, namespace))
    case FromIngress(_, _, _, _) => None
    case FromApp(_, _, annotations, _, _, destination) =>
      if Get(annotations, SERVICE_REF) != "" then Some(ParseRef(Get(annotations, SERVICE_REF), destination)) else None
  }

  function IngressRefOf(src: Source): Option<ObjectRef> {
    match src
    case FromService(_, _, _, _) => None
    case FromIngress(name, namespace, _, _) => Some(ObjectRef(name, namespace))
    case FromApp(_, _, annotations, _, _, destination) =>
      if Get(annotations, SERVICE_REF) == "" && Get(annotations, INGRESS_REF) != "" then
        Some(ParseRef(Get(annotations, INGRESS_REF), destination))
      else None
  }

  function PortOf(v: string): int {
    if v == "" then 0
    else
      match ScanInt(v)
      case Some(p) => p
      case None => 0
  }

  /** The spec the watcher writes; a Service or an Ingress leaves the source port at 0. */
  function BuildSpec(cfg: Setting, src: Source): Spec {
    var a := src.annotations;
    var name := KeyOf(cfg, src).name;
    if src.FromApp? then
      Spec(Backend.OrElse(Get(a, SOURCE_HOST), Backend.UnderDomain(src.name, cfg.defaultDomain)), [], 443,
        Get(a, DEST_HOST), PortOf(Get(a, DEST_PORT)), Protocol(a), Get(a, ACL_PROFILE),
        Some(AssignsCert(a)), [], ServiceRefOf(src), IngressRefOf(src), None, name, src.name)
    else
      Spec(Get(a, SOURCE_HOST), [], 0, "", 0, Protocol(a), Get(a, ACL_PROFILE),
        Some(AssignsCert(a)), [], ServiceRefOf(src), IngressRefOf(src), None, name, "")
  }

  lemma AnnotationsDiffer()
    ensures |SOURCE_HOST| == |ACL_PROFILE| == |SERVICE_REF| == |INGRESS_REF| == 26
    ensures |DEST_PROTOCOL| == 35 && |ASSIGN_CERT| == 33 && |DEST_HOST| == |DEST_PORT| == 31
    ensures SOURCE_HOST != ACL_PROFILE && SOURCE_HOST != SERVICE_REF && SOURCE_HOST != INGRESS_REF
    ensures ACL_PROFILE != SERVICE_REF && ACL_PROFILE != INGRESS_REF && SERVICE_REF != INGRESS_REF
    ensures DEST_HOST != DEST_PORT
  {
    assert SOURCE_HOST[16] == 'o' && ACL_PROFILE[16] == 'c' && SERVICE_REF[16] == 'e' && INGRESS_REF[16] == 'n';
    assert DEST_HOST[27] == 'h' && DEST_PORT[27] == 'p';
  }

  /** The spec with what annotation `key` steers set to what `v` says. */
  function Steered(src: Source, spec: Spec, key: string, v: string): Spec {
    if key == SOURCE_HOST then spec.(sourceHost := v)
    else if key == ACL_PROFILE then spec.(aclProfile := v)
    else if key == DEST_PROTOCOL then spec.(destinationProtocol := v)
    else if key == ASSIGN_CERT then spec.(assignCertificate := Some(ToLower(v) != "false"))
    else if !src.FromApp? then spec
    else if key == DEST_HOST then spec.(destinationHost := v)
    else if key == DEST_PORT then spec.(destinationPort := if ScanInt(v).Some? then ScanInt(v).value else 0)
    else if key == SERVICE_REF then spec.(serviceRef := Some(ParseRef(v, src.destination)), ingressRef := None)
    else if key == INGRESS_REF && Get(src.annotations, SERVICE_REF) == "" then
      spec.(ingressRef := Some(ParseRef(v, src.destination)))
    else spec
  }

  lemma ObjectAnnotationSteers(cfg: Setting, src: Source, key: string, v: string)
    requires v != "" && !src.FromApp?
    ensures BuildSpec(cfg, src.(annotations := src.annotations[key := v])) == Steered(src, BuildSpec(cfg, src), key, v)
  {
    AnnotationsDiffer();
    var a := src.annotations[key := v];
    forall k: string ensures Get(a, k) == if k == key then v else Get(src.annotations, k) {}
  }

  lemma GetAfter(annotations: Annotations, key: string, v: string, k: string)
    ensures Get(annotations[key := v], k) == if k == key then v else Get(annotations, k)
  {
  }

  lemma RefsSteer(src: Source, key: string, v: string)
    requires v != "" && src.FromApp?
    ensures
      var src' := src.(annotations := src.annotations[key := v]);
      && ServiceRefOf(src') == (if key == SERVICE_REF then Some(ParseRef(v, src.destination)) else ServiceRefOf(src))
      && IngressRefOf(src') ==
           if key == SERVICE_REF then None
           else if key == INGRESS_REF && Get(src.annotations, SERVICE_REF) == "" then Some(ParseRef(v, src.destination))
           else IngressRefOf(src)
  {
    AnnotationsDiffer();
    GetAfter(src.annotations, key, v, SERVICE_REF);
    GetAfter(src.annotations, key, v, INGRESS_REF);
  }

  lemma AppAnnotationSteers(cfg: Setting, src: Source, key: string, v: string)
    requires v != "" && src.FromApp?
    ensures BuildSpec(cfg, src.(annotations := src.annotations[key := v])) == Steered(src, BuildSpec(cfg, src), key, v)
  {
    var a := src.annotations;
    AnnotationsDiffer();
    RefsSteer(src, key, v);
    GetAfter(a, key, v, SOURCE_HOST);
    GetAfter(a, key, v, ACL_PROFILE);
    GetAfter(a, key, v, DEST_PROTOCOL);
    GetAfter(a, key, v, ASSIGN_CERT);
    GetAfter(a, key, v, DEST_HOST);
    GetAfter(a, key, v, DEST_PORT);
  }

  /** Each annotation steers its own part of the spec and nothing else. */
  lemma AnnotationSteers(cfg: Setting, src: Source, key: string, v: string)
    requires v != ""
    ensures BuildSpec(cfg, src.(annotations := src.annotations[key := v])) == Steered(src, BuildSpec(cfg, src), key, v)
  {
    if src.FromApp? {
      AppAnnotationSteers(cfg, src, key, v);
    } else {
      ObjectAnnotationSteers(cfg, src, key, v);
    }
  }

  /** A rule goes to the configured namespace, else to the destination of its
      Application, else beside its source. */
  lemma RulePlacement(cfg: Setting, src: Source, i: int)
    requires
      var places := [cfg.ruleNamespace] + (if src.FromApp? then [src.destination] else []) + [src.namespace];
      Backend.FirstFilled(places, i)
    ensures
      var places := [cfg.ruleNamespace] + (if src.FromApp? then [src.destination] else []) + [src.namespace];
      KeyOf(cfg, src).namespace == places[i]
  {
    var places := [cfg.ruleNamespace] + (if src.FromApp? then [src.destination] else []) + [src.namespace];
    assert places[0] == cfg.ruleNamespace && (src.FromApp? ==> places[1] == src.destination);
    assert forall j | 0 <= j < i :: places[j] == "";
    assert cfg.ruleNamespace != "" ==> i == 0;
  }

  function BuildLabels(src: Source): map<string, string> {
    if src.FromApp? then
      var labels := map[MANAGED_BY := OPERATOR, BY_APP := src.name, BY_APP_NS := src.namespace];
      if ServiceRefOf(src).None? && IngressRefOf(src).None? && src.destination != "" then
        labels[TARGET_NS := src.destination]
      else labels
    else map[MANAGED_BY := OPERATOR, BY_OBJECT := src.name, BY_OBJECT_NS := src.namespace]
  }

  function BuildRule(cfg: Setting, src: Source): WatchedRule {
    WatchedRule(BuildLabels(src),
      if src.FromApp? && src.namespace == RuleNamespaceFor(cfg, src) then Some(src.uid) else None,
      BuildSpec(cfg, src))
  }

  /** A rule that deletion on behalf of the source may remove. */
  predicate Owns(src: Source, rule: WatchedRule) {
    if src.FromApp? then
      || rule.controller == Some(src.uid)
      || (Get(rule.labels, BY_APP) == src.name && Get(rule.labels, BY_APP_NS) == src.namespace)
    else Get(rule.labels, BY_OBJECT) == src.name && Get(rule.labels, BY_OBJECT_NS) == src.namespace
  }

  lemma LabelsDiffer()
    ensures |MANAGED_BY| == 28 && |BY_OBJECT| == 35 && |BY_OBJECT_NS| == 38 && |BY_APP| == 37 && |BY_APP_NS| == 40
    ensures |TARGET_NS| == 34
  {
  }

  /** A built rule is owned by nobody but its source: the object of that name, or the
      Application of that name or identity. */
  lemma OwnsOnlyOwn(cfg: Setting, src: Source, other: Source)
    requires src.name != "" && other.name != ""
    ensures Owns(other, BuildRule(cfg, src)) <==>
      && other.FromApp? == src.FromApp?
      && (|| (other.name == src.name && other.namespace == src.namespace)
          || (src.FromApp? && other.uid == src.uid && src.namespace == RuleNamespaceFor(cfg, src)))
  {
    LabelsDiffer();
    var labels := BuildLabels(src);
    assert !src.FromApp? ==>
      BY_APP !in labels && labels[BY_OBJECT] == src.name && labels[BY_OBJECT_NS] == src.namespace;
    assert src.FromApp? ==> BY_OBJECT !in labels && labels[BY_APP] == src.name && labels[BY_APP_NS] == src.namespace;
  }

  // ------------------------------------------------------------- reconciling

  /** The defaults of the resource definition, applied to whatever is stored. */
  function Defaulted(spec: Spec): Spec {
    spec.(sourcePort := if spec.sourcePort == 0 then 443 else spec.sourcePort,
          destinationProtocol := Backend.OrElse(spec.destinationProtocol, "http"),
          assignCertificate := if spec.assignCertificate.None? then Some(true) else spec.assignCertificate)
  }

  datatype Write = Created | Updated | Deleted | Silent

  datatype Watched = Watched(rules: Store, write: Write)

  function UpsertRule(rules: Store, key: Key, desired: WatchedRule): Watched {
    if key !in rules then Watched(rules[key := desired.(spec := Defaulted(desired.spec))], Created)
    else if rules[key].spec == desired.spec then Watched(rules, Silent)
    else Watched(rules[key := rules[key].(spec := Defaulted(desired.spec))], Updated)
  }

  function DeleteOwnedRule(rules: Store, key: Key, src: Source): Watched {
    if key !in rules || !Owns(src, rules[key]) then Watched(rules, Silent)
    else Watched(rules - {key}, Deleted)
  }

  function Reconcile(cfg: Setting, rules: Store, src: Source): Watched {
    if Manages(cfg, rules, src) then UpsertRule(rules, KeyOf(cfg, src), BuildRule(cfg, src))
    else DeleteOwnedRule(rules, KeyOf(cfg, src), src)
  }

  // ------------------------------------------------------ the manual-rule signal

  function At(rules: Store, key: Key): Option<WatchedRule> {
    if key in rules then Some(rules[key]) else None
  }

  /** Only rules the operator made carry the marks of an owner. */
  predicate CoherentFor(cfg: Setting, rules: Store, src: Source) {
    var k := KeyOf(cfg, src);
    k in rules && Owns(src, rules[k]) ==> IsAuto(rules[k])
  }

  lemma BuiltIsOwned(cfg: Setting, src: Source)
    ensures IsAuto(BuildRule(cfg, src)) && Owns(src, BuildRule(cfg, src))
  {
    LabelsDiffer();
  }

  /** What one reconcile does: one key at most is touched, a rule that is kept keeps its
      labels and owner, and a rule that appears is the operator's. */
  lemma ReconcileEffect(cfg: Setting, rules: Store, src: Source)
    ensures
      var k := KeyOf(cfg, src);
      var rules' := Reconcile(cfg, rules, src).rules;
      && (forall k' | k' != k :: At(rules', k') == At(rules, k'))
      && (k in rules' && k in rules ==>
            rules'[k].labels == rules[k].labels && rules'[k].controller == rules[k].controller)
      && (k in rules' && k !in rules ==> IsAuto(rules'[k]))
      && (k !in rules' && k in rules ==> Owns(src, rules[k]))
  {
    BuiltIsOwned(cfg, src);
  }

  /** A reconcile changes whether a namespace has a manual rule exactly when it deletes
      the last one there: a rule with the marks of the source's ownership but without
      the operator's label. With coherent labels it never does. */
  lemma ManualSignal(cfg: Setting, rules: Store, src: Source, namespace: string)
    ensures
      var k := KeyOf(cfg, src);
      && (HasManual(Reconcile(cfg, rules, src).rules, namespace) != HasManual(rules, namespace)
          <==> && Reconcile(cfg, rules, src).write == Deleted
               && k.namespace == namespace && !IsAuto(rules[k])
               && forall k' | k' in rules && k' != k :: k'.namespace == namespace ==> IsAuto(rules[k']))
      && (CoherentFor(cfg, rules, src) ==>
            HasManual(Reconcile(cfg, rules, src).rules, namespace) == HasManual(rules, namespace))
  {
    ReconcileEffect(cfg, rules, src);
    var k := KeyOf(cfg, src);
    var rules' := Reconcile(cfg, rules, src).rules;
    forall k' | k' != k ensures At(rules', k') == At(rules, k') {}
    if HasManual(rules, namespace) {
      var m :| m in rules && m.namespace == namespace && !IsAuto(rules[m]);
      assert m != k ==> At(rules', m) == At(rules, m);
      if m == k && m in rules' {
        assert !IsAuto(rules'[m]);
      }
    }
    if HasManual(rules', namespace) {
      var m :| m in rules' && m.namespace == namespace && !IsAuto(rules'[m]);
      assert m != k ==> At(rules', m) == At(rules, m);
    }
  }

  // ----------------------------------------------------------------- confluence

  /** What is stored always has its defaults. */
  predicate Admitted(rules: Store) {
    forall k | k in rules :: Defaulted(rules[k].spec) == rules[k].spec
  }

  /** Where a source's rule ends up, judged from the store at the start. */
  function Outcome(cfg: Setting, rules: Store, src: Source): Option<WatchedRule> {
    var k := KeyOf(cfg, src);
    var desired := BuildRule(cfg, src);
    if Manages(cfg, rules, src) then
      Some((if k in rules then rules[k] else desired).(spec := Defaulted(desired.spec)))
    else if k in rules && Owns(src, rules[k]) then None
    else At(rules, k)
  }

  /** One reconcile brings a source's rule to its outcome. */
  lemma ReconcileReaches(cfg: Setting, rules: Store, src: Source)
    requires Admitted(rules)
    ensures At(Reconcile(cfg, rules, src).rules, KeyOf(cfg, src)) == Outcome(cfg, rules, src)
    ensures Admitted(Reconcile(cfg, rules, src).rules)
  {
    var k := KeyOf(cfg, src);
    if Manages(cfg, rules, src) && k in rules && rules[k].spec == BuildSpec(cfg, src) {
      assert rules[k].(spec := Defaulted(rules[k].spec)) == rules[k];
    }
  }

  /** A visit reconciles one of the sources; when a call to the API server fails, the
      store stays as it is and the visit has to be repeated. */
  datatype Visit = Visit(source: nat, lands: bool)

  predicate Visits(sources: seq<Source>, order: seq<Visit>) {
    forall i | 0 <= i < |order| :: order[i].source < |sources|
  }

  function Play(cfg: Setting, rules: Store, sources: seq<Source>, order: seq<Visit>): Store
    requires Visits(sources, order)
  {
    if order == [] then rules
    else
      var n := |order| - 1;
      var before := Play(cfg, rules, sources, order[..n]);
      if order[n].lands then Reconcile(cfg, before, sources[order[n].source]).rules else before
  }

  predicate Visited(order: seq<Visit>, i: nat) {
    Visit(i, true) in order
  }

  ghost predicate DistinctKeys(cfg: Setting, sources: seq<Source>) {
    forall i, j | 0 <= i < j < |sources| :: KeyOf(cfg, sources[i]) != KeyOf(cfg, sources[j])
  }

  /** Sources with rules of their own, in a store with coherent labels. */
  ghost predicate Orderly(cfg: Setting, rules: Store, sources: seq<Source>) {
    && Admitted(rules) && DistinctKeys(cfg, sources)
    && forall i | 0 <= i < |sources| :: CoherentFor(cfg, rules, sources[i])
  }

  /** Every visited source has reached its outcome, everything else is as it was, and
      so are all signals. */
  ghost predicate Progress(cfg: Setting, rules0: Store, rules: Store, sources: seq<Source>, order: seq<Visit>) {
    && Orderly(cfg, rules, sources)
    && (forall namespace :: HasManual(rules, namespace) == HasManual(rules0, namespace))
    && (forall i | 0 <= i < |sources| :: At(rules, KeyOf(cfg, sources[i]))
          == if Visited(order, i) then Outcome(cfg, rules0, sources[i]) else At(rules0, KeyOf(cfg, sources[i])))
    && (forall k | (forall i | 0 <= i < |sources| :: k != KeyOf(cfg, sources[i])) :: At(rules, k) == At(rules0, k))
  }

  /** The outcome of a source is stable: it does not depend on who was visited before,
      nor on earlier visits of its own. */
  lemma OutcomeIsStable(cfg: Setting, rules0: Store, rules: Store, src: Source)
    requires forall namespace :: HasManual(rules, namespace) == HasManual(rules0, namespace)
    requires At(rules, KeyOf(cfg, src)) in {At(rules0, KeyOf(cfg, src)), Outcome(cfg, rules0, src)}
    ensures Outcome(cfg, rules, src) == Outcome(cfg, rules0, src)
    ensures CoherentFor(cfg, rules0, src) ==> CoherentFor(cfg, rules, src)
  {
    BuiltIsOwned(cfg, src);
    assert Manages(cfg, rules, src) == Manages(cfg, rules0, src);
    assert Defaulted(Defaulted(BuildSpec(cfg, src))) == Defaulted(BuildSpec(cfg, src));
  }

  lemma VisitKeeps(cfg: Setting, rules0: Store, rules: Store, sources: seq<Source>, order: seq<Visit>, i: nat)
    requires Orderly(cfg, rules0, sources) && i < |sources|
    requires Progress(cfg, rules0, rules, sources, order)
    ensures Progress(cfg, rules0, Reconcile(cfg, rules, sources[i]).rules, sources, order + [Visit(i, true)])
  {
    var src := sources[i];
    var rules' := Reconcile(cfg, rules, src).rules;
    ReconcileEffect(cfg, rules, src);
    ReconcileReaches(cfg, rules, src);
    OutcomeIsStable(cfg, rules0, rules, src);
    forall namespace ensures HasManual(rules', namespace) == HasManual(rules0, namespace) {
      ManualSignal(cfg, rules, src, namespace);
    }
    forall j | 0 <= j < |sources|
      ensures CoherentFor(cfg, rules', sources[j])
      ensures At(rules', KeyOf(cfg, sources[j]))
        == if Visited(order + [Visit(i, true)], j) then Outcome(cfg, rules0, sources[j])
           else At(rules0, KeyOf(cfg, sources[j]))
    {
      assert j != i ==> KeyOf(cfg, sources[j]) != KeyOf(cfg, src);
      OutcomeIsStable(cfg, rules0, rules', sources[j]);
    }
  }

  lemma MissKeeps(cfg: Setting, rules0: Store, rules: Store, sources: seq<Source>, order: seq<Visit>, i: nat)
    requires Progress(cfg, rules0, rules, sources, order)
    ensures Progress(cfg, rules0, rules, sources, order + [Visit(i, false)])
  {
    forall j: nat ensures Visited(order + [Visit(i, false)], j) == Visited(order, j) {
      assert Visit(i, false) != Visit(j, true);
    }
  }

  lemma {:induction false} PlayProgresses(cfg: Setting, rules: Store, sources: seq<Source>, order: seq<Visit>)
    requires Orderly(cfg, rules, sources) && Visits(sources, order)
    ensures Progress(cfg, rules, Play(cfg, rules, sources, order), sources, order)
  {
    if order != [] {
      var n := |order| - 1;
      PlayProgresses(cfg, rules, sources, order[..n]);
      assert order == order[..n] + [order[n]];
      var before := Play(cfg, rules, sources, order[..n]);
      if order[n].lands {
        VisitKeeps(cfg, rules, before, sources, order[..n], order[n].source);
      } else {
        MissKeeps(cfg, rules, before, sources, order[..n], order[n].source);
      }
    }
  }

  /** Confluence: once each source has been reconciled, in any order, with repetitions
      and failures in between, the store is the same. */
  lemma WatchersConverge(cfg: Setting, rules: Store, sources: seq<Source>, one: seq<Visit>, two: seq<Visit>)
    requires Orderly(cfg, rules, sources) && Visits(sources, one) && Visits(sources, two)
    requires forall i | 0 <= i < |sources| :: Visited(one, i) && Visited(two, i)
    ensures Play(cfg, rules, sources, one) == Play(cfg, rules, sources, two)
  {
    PlayProgresses(cfg, rules, sources, one);
    PlayProgresses(cfg, rules, sources, two);
    var a, b := Play(cfg, rules, sources, one), Play(cfg, rules, sources, two);
    forall k ensures At(a, k) == At(b, k) {
      if i :| 0 <= i < |sources| && k == KeyOf(cfg, sources[i]) {
        assert Visited(one, i) && Visited(two, i);
      }
    }
    assert a.Keys == b.Keys by {
      forall k ensures k in a <==> k in b { assert At(a, k) == At(b, k); }
    }
    forall k | k in a ensures a[k] == b[k] { assert At(a, k) == At(b, k); }
  }

  /** What that store says: a source has a rule with its spec exactly when the
      documented decision is to manage it, and otherwise none that it owns; the decision
      is the same before and after; and unless a rule of somebody else sits at its key,
      it owns a rule exactly when it is managed. */
  lemma OwnedIffManaged(cfg: Setting, rules: Store, sources: seq<Source>, order: seq<Visit>, i: nat)
    requires Orderly(cfg, rules, sources) && Visits(sources, order) && i < |sources| && Visited(order, i)
    ensures
      var src, rules' := sources[i], Play(cfg, rules, sources, order);
      var k := KeyOf(cfg, src);
      var rule := At(rules', k);
      var manage := !src.deleting && Documented(cfg, rules', src) == Manage;
      && Documented(cfg, rules', src) == Documented(cfg, rules, src)
      && (manage ==> rule.Some? && rule.value.spec == Defaulted(BuildSpec(cfg, src)))
      && (!manage ==> rule.None? || (!Owns(src, rule.value) && rule == At(rules, k)))
      && ((k in rules ==> Owns(src, rules[k])) ==> ((rule.Some? && Owns(src, rule.value)) <==> manage))
  {
    PlayProgresses(cfg, rules, sources, order);
    SameDocumented(cfg, rules, Play(cfg, rules, sources, order), sources[i]);
    DecidesAsDocumented(cfg, rules, sources[i]);
    BuiltIsOwned(cfg, sources[i]);
  }

  /** A settled Application is left alone; a settled Service or Ingress is rewritten at
      every visit, because the source port it leaves out is stored with its default. */
  lemma SettledWrites(cfg: Setting, rules: Store, src: Source)
    requires Admitted(rules) && Manages(cfg, rules, src)
    requires At(rules, KeyOf(cfg, src)) == Outcome(cfg, rules, src)
    ensures Reconcile(cfg, rules, src).write == if src.FromApp? then Silent else Updated
    ensures Reconcile(cfg, rules, src).rules == rules
  {
    var k := KeyOf(cfg, src);
    assert rules[k].spec == Defaulted(BuildSpec(cfg, src));
    assert src.FromApp? ==> Defaulted(BuildSpec(cfg, src)) == BuildSpec(cfg, src);
  }

  /** Services, or Ingresses, whose namespaces are labels without two dashes in a row
      never share a key; without a rule namespace they never do in any case. */
  lemma ObjectKeysDiffer(cfg: Setting, a: Source, b: Source)
    requires (a.FromService? && b.FromService?) || (a.FromIngress? && b.FromIngress?)
    requires a.name != b.name || a.namespace != b.namespace
    requires cfg.ruleNamespace == "" || (PlainNamespace(a.namespace) && PlainNamespace(b.namespace))
    ensures KeyOf(cfg, a) != KeyOf(cfg, b)
  {
    if cfg.ruleNamespace == "" {
      if a.namespace == b.namespace {
        assert (a.namespace + "--" + a.name)[|a.namespace| + 2..] == a.name;
        assert (b.namespace + "--" + b.name)[|b.namespace| + 2..] == b.name;
      }
    } else {
      RuleNameDecodes(a.name, a.namespace);
      RuleNameDecodes(b.name, b.namespace);
    }
  }

  // -------------------------------------------------------------------- methods

  /** The rules as the API server stores them. */
  class RuleStore {
    var rules: Store

    constructor (rules: Store)
      ensures this.rules == rules
    {
      this.rules := rules;
    }

    method Create(key: Key, rule: WatchedRule)
      requires key !in rules
      modifies this
      ensures rules == old(rules)[key := rule.(spec := Defaulted(rule.spec))]
    {
      rules := rules[key := rule.(spec := Defaulted(rule.spec))];
    }

    method Update(key: Key, spec: Spec)
      requires key in rules
      modifies this
      ensures rules == old(rules)[key := old(rules)[key].(spec := Defaulted(spec))]
    {
      rules := rules[key := rules[key].(spec := Defaulted(spec))];
    }

    method Delete(key: Key)
      modifies this
      ensures rules == old(rules) - {key}
    {
      rules := rules - {key};
    }

    /** Looks through the rules of a namespace until one turns out to be manual. */
    method HasManualRule(namespace: string) returns (found: bool)
      ensures found == HasManual(rules, namespace)
    {
      var left := rules.Keys;
      while left != {}
        invariant left <= rules.Keys
        invariant forall k | k in rules && k !in left :: k.namespace == namespace ==> IsAuto(rules[k])
        decreases |left|
      {
        var k :| k in left;
        if k.namespace == namespace && !IsAuto(rules[k]) {
          return true;
        }
        left := left - {k};
      }
      found := false;
    }
  }

  class SourceReconciler {
    const api: RuleStore
    const cfg: Setting

    constructor (api: RuleStore, cfg: Setting)
      ensures this.api == api && this.cfg == cfg
    {
      this.api, this.cfg := api, cfg;
    }

    method DoUpsertRule(key: Key, desired: WatchedRule) returns (write: Write)
      modifies api
      ensures Watched(api.rules, write) == UpsertRule(old(api.rules), key, desired)
    {
      if key !in api.rules {
        api.Create(key, desired);
        return Created;
      }
      if api.rules[key].spec == desired.spec {
        return Silent;
      }
      api.Update(key, desired.spec);
      write := Updated;
    }

    method DoDeleteOwnedRule(key: Key, src: Source) returns (write: Write)
      modifies api
      ensures Watched(api.rules, write) == DeleteOwnedRule(old(api.rules), key, src)
    {
      if key !in api.rules {
        return Silent;
      }
      if !Owns(src, api.rules[key]) {
        return Silent;
      }
      api.Delete(key);
      write := Deleted;
    }

    /** Services and Ingresses. */
    method ReconcileObject(src: Source) returns (write: Write)
      requires !src.FromApp?
      modifies api
      ensures Watched(api.rules, write) == Reconcile(cfg, old(api.rules), src)
    {
      var key := KeyOf(cfg, src);
      if src.deleting || !IsResourceEnabled(cfg, src.namespace, src.annotations) {
        write := DoDeleteOwnedRule(key, src);
        return;
      }
      if cfg.disableIfManual && !IsEnabled(src.annotations) {
        var manual := api.HasManualRule(src.namespace);
        if manual {
          write := DoDeleteOwnedRule(key, src);
          return;
        }
      }
      write := DoUpsertRule(key, BuildRule(cfg, src));
    }

    /** Argo CD Applications. */
    method ReconcileApplication(app: Source) returns (write: Write)
      requires app.FromApp?
      modifies api
      ensures Watched(api.rules, write) == Reconcile(cfg, old(api.rules), app)
    {
      var key := KeyOf(cfg, app);
      if IsDisabled(app.annotations) || (!IsEnabled(app.annotations) && !AutoDiscovered(cfg, app.namespace)) {
        write := DoDeleteOwnedRule(key, app);
        return;
      }
      if app.deleting {
        write := DoDeleteOwnedRule(key, app);
        return;
      }
      if cfg.disableIfManual && !IsEnabled(app.annotations) {
        var checkNamespace := if app.destination == "" then app.namespace else app.destination;
        var manual := api.HasManualRule(checkNamespace);
        if manual {
          write := DoDeleteOwnedRule(key, app);
          return;
        }
      }
      write := DoUpsertRule(key, BuildRule(cfg, app));
    }
  }
}
