/** Certificates: host name patterns, the choice of a certificate, and the rows that
    tie certificates to proxy records. */
module CertificateChoice {
  import opened Util
  import opened Dsm

  predicate MatchesCertPattern(pattern: string, hostname: string) {
    || pattern == hostname
    || (HasPrefix(pattern, "*.") &&
        (HasSuffix(hostname, "." + pattern[2..]) || hostname == pattern[2..]))
  }

  // ------------------------------------------------------------ label lists

  /** The dot-separated labels of a name; never empty. */
  function Labels(s: string): (r: seq<string>)
    ensures r != []
  {
    if s == "" then [""] else Push(s[0], Labels(s[1..]))
  }

  /** Puts one character in front of a list of labels. */
  function Push(c: char, ls: seq<string>): (r: seq<string>)
    requires ls != []
    ensures r != []
  {
    if c == '.' then [""] + ls else [[c] + ls[0]] + ls[1..]
  }

  lemma PushConcat(c: char, a: seq<string>, b: seq<string>)
    requires a != []
    ensures Push(c, a + b) == Push(c, a) + b
  {
    assert (a + b)[1..] == a[1..] + b;
  }

  function Join(ls: seq<string>): string
    requires ls != []
  {
    if |ls| == 1 then ls[0] else ls[0] + "." + Join(ls[1..])
  }

  lemma {:induction false} JoinLabels(s: string)
    ensures Join(Labels(s)) == s
  {
    if s != "" {
      JoinLabels(s[1..]);
      var rest := Labels(s[1..]);
      if s[0] == '.' {
        assert ([""] + rest)[1..] == rest;
      } else {
        var ls := [[s[0]] + rest[0]] + rest[1..];
        assert ls[1..] == rest[1..];
        if |rest| > 1 {
          assert Join(ls) == [s[0]] + (rest[0] + "." + Join(rest[1..]));
        }
      }
      assert s == [s[0]] + s[1..];
    }
  }

  predicate DotFree(ls: seq<string>) {
    forall l | l in ls :: '.' !in l
  }

  lemma {:induction false} LabelsDotFree(s: string)
    ensures DotFree(Labels(s))
  {
    if s != "" {
      LabelsDotFree(s[1..]);
      var rest := Labels(s[1..]);
      if s[0] != '.' {
        assert rest[0] in rest;
        forall l | l in rest[1..] ensures '.' !in l { assert l in rest; }
      }
    }
  }

  /** Splitting at an inner dot: the labels of both parts, side by side. */
  lemma {:induction false} LabelsConcat(a: string, b: string)
    ensures Labels(a + "." + b) == Labels(a) + Labels(b)
  {
    var s := a + "." + b;
    if a == "" {
      assert s[0] == '.' && s[1..] == b;
    } else {
      assert s[1..] == a[1..] + "." + b && s[0] == a[0];
      LabelsConcat(a[1..], b);
      PushConcat(a[0], Labels(a[1..]), Labels(b));
    }
  }

  lemma {:induction false} JoinConcat(a: seq<string>, b: seq<string>)
    requires a != [] && b != []
    ensures Join(a + b) == Join(a) + "." + Join(b)
  {
    if |a| == 1 {
      assert (a + b)[1..] == b;
    } else {
      JoinConcat(a[1..], b);
      assert (a + b)[1..] == a[1..] + b;
      assert a[0] + "." + (Join(a[1..]) + "." + Join(b)) == (a[0] + "." + Join(a[1..])) + "." + Join(b);
    }
  }

  predicate IsLabelSuffix(a: seq<string>, b: seq<string>) {
    |a| <= |b| && b[|b| - |a|..] == a
  }

  lemma DottedSuffix(head: string, suffix: string)
    ensures IsLabelSuffix(Labels(suffix), Labels(head + "." + suffix))
  {
    LabelsConcat(head, suffix);
  }

  lemma DotInside(head: string, suffix: string)
    ensures HasSuffix(head + "." + suffix, "." + suffix)
  {
    assert (head + "." + suffix)[|head|..] == "." + suffix;
  }

  lemma {:induction false} JoinSplit(hs: seq<string>, n: nat)
    requires 0 < n < |hs|
    ensures Join(hs) == Join(hs[..n]) + "." + Join(hs[n..])
  {
    assert hs == hs[..n] + hs[n..];
    JoinConcat(hs[..n], hs[n..]);
  }

  lemma LabelSuffixJoins(suffix: string, hostname: string)
    requires IsLabelSuffix(Labels(suffix), Labels(hostname)) && Labels(suffix) != Labels(hostname)
    ensures HasSuffix(hostname, "." + suffix)
  {
    var hs := Labels(hostname);
    var n := |hs| - |Labels(suffix)|;
    assert n > 0;
    JoinSplit(hs, n);
    JoinLabels(suffix);
    JoinLabels(hostname);
    DotInside(Join(hs[..n]), suffix);
  }

  /** The textual suffix test is the label-wise one. */
  lemma SuffixIsLabelWise(suffix: string, hostname: string)
    ensures (HasSuffix(hostname, "." + suffix) || hostname == suffix)
        <==> IsLabelSuffix(Labels(suffix), Labels(hostname))
  {
    var dotted := "." + suffix;
    if HasSuffix(hostname, dotted) {
      var head := hostname[..|hostname| - |dotted|];
      assert hostname == head + "." + suffix;
      DottedSuffix(head, suffix);
    }
    if IsLabelSuffix(Labels(suffix), Labels(hostname)) {
      if Labels(suffix) == Labels(hostname) {
        JoinLabels(suffix);
        JoinLabels(hostname);
      } else {
        LabelSuffixJoins(suffix, hostname);
      }
    }
  }

  /** A wildcard pattern covers a name exactly when it is that name, or its labels
      after the wildcard end the labels of the name. */
  lemma WildcardIsLabelWise(pattern: string, hostname: string)
    requires HasPrefix(pattern, "*.")
    ensures MatchesCertPattern(pattern, hostname)
        <==> pattern == hostname || IsLabelSuffix(Labels(pattern[2..]), Labels(hostname))
  {
    SuffixIsLabelWise(pattern[2..], hostname);
  }

  /** The whole-label wildcard rule of section 6.4.3 of RFC 6125: `*` stands for
      exactly the left-most label. */
  predicate Rfc6125Match(pattern: string, hostname: string) {
    var p, h := Labels(pattern), Labels(hostname);
    |p| == |h| && p[0] == "*" && p[1..] == h[1..]
  }

  /** The operator accepts what that rule accepts, and of names with as many labels
      as the pattern nothing else. */
  lemma Rfc6125(pattern: string, hostname: string)
    requires HasPrefix(pattern, "*.")
    ensures Rfc6125Match(pattern, hostname)
        <==> MatchesCertPattern(pattern, hostname) && |Labels(pattern)| == |Labels(hostname)|
  {
    var rest := pattern[2..];
    assert pattern == "*" + "." + rest;
    LabelsConcat("*", rest);
    assert Labels("*") == ["*"] by {
      assert "*"[1..] == "" && Labels("") == [""];
      var none: seq<string> := [""];
      assert none[1..] == [] && ['*'] + none[0] == "*";
      assert Push('*', none) == [['*'] + none[0]] + none[1..] == ["*"];
    }
    WildcardIsLabelWise(pattern, hostname);
    assert Labels(pattern)[1..] == Labels(rest);
    var h := Labels(hostname);
    if |Labels(pattern)| == |h| {
      assert h[|h| - |Labels(rest)|..] == h[1..];
    }
  }

  // ------------------------------------------------------- the choice itself

  function Patterns(c: Certificate): seq<string> {
    [c.commonName] + c.subAltName
  }

  predicate Covers(c: Certificate, hostname: string) {
    exists p | p in Patterns(c) :: MatchesCertPattern(p, hostname)
  }

  /** The first certificate covering the name, else the last default one. */
  function BestFrom(certs: seq<Certificate>, hostname: string, id: string, desc: string): (string, string) {
    if certs == [] then if id != "" then (id, desc) else ("", "")
    else if Covers(certs[0], hostname) then (certs[0].id, certs[0].desc)
    else if certs[0].isDefault then BestFrom(certs[1..], hostname, certs[0].id, certs[0].desc)
    else BestFrom(certs[1..], hostname, id, desc)
  }

  function BestCert(certs: seq<Certificate>, hostname: string): (string, string) {
    BestFrom(certs, hostname, "", "")
  }

  predicate NoneCovers(certs: seq<Certificate>, hostname: string) {
    forall c | c in certs :: !Covers(c, hostname)
  }

  /** `i` is the last default certificate. */
  predicate LastDefault(certs: seq<Certificate>, i: int) {
    && 0 <= i < |certs| && certs[i].isDefault
    && forall j | i < j < |certs| :: !certs[j].isDefault
  }

  lemma {:induction false} BestFromChoice(certs: seq<Certificate>, hostname: string, id: string, desc: string)
    ensures
      var best := BestFrom(certs, hostname, id, desc);
      && (forall i | 0 <= i < |certs| && Covers(certs[i], hostname) && NoneCovers(certs[..i], hostname) ::
            best == (certs[i].id, certs[i].desc))
      && (NoneCovers(certs, hostname) ==>
            forall i | LastDefault(certs, i) ::
              best == if certs[i].id != "" then (certs[i].id, certs[i].desc) else ("", ""))
      && (NoneCovers(certs, hostname) && (forall c | c in certs :: !c.isDefault) ==>
            best == if id != "" then (id, desc) else ("", ""))
  {
    var best := BestFrom(certs, hostname, id, desc);
    if certs != [] {
      var c, rest := certs[0], certs[1..];
      var (id', desc') := if c.isDefault then (c.id, c.desc) else (id, desc);
      BestFromChoice(rest, hostname, id', desc');
      forall i | 0 <= i < |certs| && Covers(certs[i], hostname) && NoneCovers(certs[..i], hostname)
        ensures best == (certs[i].id, certs[i].desc)
      {
        if i > 0 {
          assert c in certs[..i];
          forall d | d in rest[..i - 1] ensures !Covers(d, hostname) { assert d in certs[..i]; }
          assert rest[i - 1] == certs[i];
        }
      }
      if NoneCovers(certs, hostname) {
        assert c in certs;
        forall d | d in rest ensures d in certs {}
        forall i | LastDefault(certs, i)
          ensures best == if certs[i].id != "" then (certs[i].id, certs[i].desc) else ("", "")
        {
          if i > 0 {
            assert LastDefault(rest, i - 1);
          } else {
            forall d | d in rest ensures !d.isDefault {
              var j :| 0 <= j < |rest| && rest[j] == d;
              assert certs[j + 1] == d;
            }
          }
        }
      }
    }
  }

  /** A pattern is for a name if it is that name, or if it is a star and a dot in front of the
      name or of what follows one of its dots. */
  ghost predicate IsFor(pattern: string, hostname: string) {
    || pattern == hostname
    || (exists s :: pattern == "*." + s && (hostname == s || exists x :: hostname == x + "." + s))
  }

  lemma PatternExactly(pattern: string, hostname: string)
    ensures MatchesCertPattern(pattern, hostname) <==> IsFor(pattern, hostname)
  {
    if MatchesCertPattern(pattern, hostname) && pattern != hostname {
      var s := pattern[2..];
      assert pattern == "*." + s;
      if hostname != s {
        assert hostname == hostname[..|hostname| - |"." + s|] + "." + s;
      }
    }
    if s :| pattern == "*." + s && (hostname == s || exists x :: hostname == x + "." + s) {
      assert pattern[..2] == "*." && pattern[2..] == s;
      if x :| hostname == x + "." + s {
        assert hostname[|x|..] == "." + s;
      }
    }
  }

  /** A certificate is for a name if its common name is, or one of its alternative names. */
  ghost predicate IsCertFor(c: Certificate, hostname: string) {
    IsFor(c.commonName, hostname) || exists i | 0 <= i < |c.subAltName| :: IsFor(c.subAltName[i], hostname)
  }

  lemma CoversExactly(c: Certificate, hostname: string)
    ensures Covers(c, hostname) <==> IsCertFor(c, hostname)
  {
    var ps := Patterns(c);
    forall i | 0 <= i < |ps| ensures MatchesCertPattern(ps[i], hostname) <==> IsFor(ps[i], hostname) {
      PatternExactly(ps[i], hostname);
    }
    assert ps[0] == c.commonName && ps[0] in ps;
    assert forall i | 0 <= i < |c.subAltName| :: ps[i + 1] == c.subAltName[i] && ps[i + 1] in ps;
    if Covers(c, hostname) {
      var i :| 0 <= i < |ps| && MatchesCertPattern(ps[i], hostname);
      assert i > 0 ==> ps[i] == c.subAltName[i - 1];
    }
  }

  /** The documented selection order: the first certificate for the name in list order, else
      the last default one, else none. */
  lemma BestCertChoice(certs: seq<Certificate>, hostname: string)
    ensures
      var best := BestCert(certs, hostname);
      && (forall i | 0 <= i < |certs| && IsCertFor(certs[i], hostname)
            && (forall j | 0 <= j < i :: !IsCertFor(certs[j], hostname)) ::
            best == (certs[i].id, certs[i].desc))
      && ((forall c | c in certs :: !IsCertFor(c, hostname)) ==>
            forall i | 0 <= i < |certs| && certs[i].isDefault && (forall j | i < j < |certs| :: !certs[j].isDefault) ::
              best == if certs[i].id != "" then (certs[i].id, certs[i].desc) else ("", ""))
      && ((forall c | c in certs :: !IsCertFor(c, hostname) && !c.isDefault) ==> best == ("", ""))
  {
    BestFromChoice(certs, hostname, "", "");
    forall c ensures Covers(c, hostname) <==> IsCertFor(c, hostname) {
      CoversExactly(c, hostname);
    }
    forall i | 0 <= i < |certs| && IsCertFor(certs[i], hostname)
        && (forall j | 0 <= j < i :: !IsCertFor(certs[j], hostname))
      ensures BestCert(certs, hostname) == (certs[i].id, certs[i].desc)
    {
      assert NoneCovers(certs[..i], hostname);
    }
    forall i | 0 <= i < |certs| && certs[i].isDefault && (forall j | i < j < |certs| :: !certs[j].isDefault)
      ensures LastDefault(certs, i)
    {
    }
  }

  /** No certificate is chosen exactly when none covers the name and none is the default;
      that there are certificates at all does not help. */
  lemma {:induction false} NothingChosen(certs: seq<Certificate>, hostname: string, id: string, desc: string)
    requires forall c | c in certs :: c.id != ""
    ensures BestFrom(certs, hostname, id, desc).0 == ""
       <==> id == "" && NoneCovers(certs, hostname) && forall c | c in certs :: !c.isDefault
  {
    if certs != [] {
      var (id', desc') := if certs[0].isDefault then (certs[0].id, certs[0].desc) else (id, desc);
      forall c | c in certs[1..] ensures c.id != "" { assert c in certs; }
      NothingChosen(certs[1..], hostname, id', desc');
      assert certs == [certs[0]] + certs[1..];
    }
  }

  lemma NoCertificate(certs: seq<Certificate>, hostname: string)
    requires forall c | c in certs :: c.id != ""
    ensures BestCert(certs, hostname).0 == ""
       <==> NoneCovers(certs, hostname) && forall c | c in certs :: !c.isDefault
  {
    NothingChosen(certs, hostname, "", "");
  }

  /** The two nested loops over certificates and their patterns. */
  method FindMatchingCert(certs: seq<Certificate>, hostname: string) returns (id: string, desc: string)
    ensures (id, desc) == BestCert(certs, hostname)
  {
    var defaultID, defaultDesc := "", "";
    var i := 0;
    while i < |certs|
      invariant 0 <= i <= |certs|
      invariant BestCert(certs, hostname) == BestFrom(certs[i..], hostname, defaultID, defaultDesc)
    {
      var cert := certs[i];
      assert certs[i..][0] == cert && certs[i..][1..] == certs[i + 1..];
      if cert.isDefault {
        defaultID, defaultDesc := cert.id, cert.desc;
      }
      var patterns := [cert.commonName] + cert.subAltName;
      var k := 0;
      while k < |patterns|
        invariant 0 <= k <= |patterns|
        invariant forall j | 0 <= j < k :: !MatchesCertPattern(patterns[j], hostname)
      {
        if MatchesCertPattern(patterns[k], hostname) {
          assert patterns[k] in Patterns(cert);
          return cert.id, cert.desc;
        }
        k := k + 1;
      }
      i := i + 1;
    }
    if defaultID != "" {
      return defaultID, defaultDesc;
    }
    return "", "";
  }
}

module CertificateService {
  import opened Dsm
  import opened Client
  import opened CertificateChoice

  function AssignCertificate(w: World, uuid: Uuid, hostname: string, prevCertID: string): Did<string> {
    var l := Post(w, ListCerts);
    match l.reply
    case Failure(f) => Did(l.w, Err(f))
    case Dead => Did(l.w, Stopped)
    case Data(answer) =>
      if !answer.Certs? then Did(l.w, Err(Unparseable))
      else
        var certID := BestCert(answer.certs, hostname).0;
        if certID == "" then Did(l.w, Ok(""))
        else
          var p := Post(l.w, SetCert(uuid, hostname, prevCertID, certID));
          match p.reply
          case Data(_) => Did(p.w, Ok(certID))
          case Failure(f) => Did(p.w, Err(f))
          case Dead => Did(p.w, Stopped)
  }

  function UnassignCertificate(w: World, uuid: Uuid, hostname: string): Did<()> {
    var p := Post(w, SetCert(uuid, hostname, "", ""));
    match p.reply
    case Data(_) => Did(p.w, Ok(()))
    case Failure(f) => Did(p.w, Err(f))
    case Dead => Did(p.w, Stopped)
  }

  /** An exchange that leaves the record list alone. */
  ghost predicate CertStep(rs: seq<ProxyEntry>, x: Exchange) {
    (IsRead(x.req) || x.req.SetCert?) && x.after == rs
  }

  /** At most certificate rows changed. */
  ghost predicate OnlyCerts(w: World, w': World) {
    && w'.nas == w.nas.(services := w'.nas.services)
    && LogGrows(w.log, w'.log, x => CertStep(w.nas.records, x))
  }

  lemma OnlyCertsTrans(a: World, b: World, c: World)
    requires OnlyCerts(a, b) && OnlyCerts(b, c)
    ensures OnlyCerts(a, c)
  {
    LogGrowsTrans(a.log, b.log, c.log, x => CertStep(a.nas.records, x));
  }

  lemma LandedSetCert(w: World, req: Request, w': World)
    requires req.SetCert? && Landed(w, req, w')
    ensures OnlyCerts(w, w')
  {
    LogWeaken(w.log, w'.log, x => Arrived(w.nas, w'.nas, req, x), x => CertStep(w.nas.records, x));
  }

  lemma {:induction false} PostSetCert(w: World, req: Request)
    requires req.SetCert?
    ensures OnlyCerts(w, Post(w, req).w)
    decreases |w.script|
  {
    AttemptEffect(w, req);
    var step := Attempt(w, req);
    if step.Again? {
      LandedSetCert(w, req, step.w);
      PostSetCert(step.w, req);
      OnlyCertsTrans(w, step.w, Post(step.w, req).w);
    } else {
      LandedSetCert(w, req, step.posted.w);
    }
  }

  lemma PostListCerts(w: World)
    ensures
      var l := Post(w, ListCerts);
      && l.w.nas == w.nas && OnlyCerts(w, l.w)
      && (l.reply.Data? ==> l.reply.answer == Certs(w.nas.certificates))
  {
    PostEffect(w, ListCerts);
    var w' := Post(w, ListCerts).w;
    LogWeaken(w.log, w'.log, x => Arrived(w.nas, w'.nas, ListCerts, x), x => CertStep(w.nas.records, x));
  }

  /** Assigning a certificate never touches the record list. */
  lemma AssignEffect(w: World, uuid: Uuid, hostname: string, prevCertID: string)
    ensures OnlyCerts(w, AssignCertificate(w, uuid, hostname, prevCertID).w)
  {
    PostListCerts(w);
    var l := Post(w, ListCerts);
    var certID := BestCert(w.nas.certificates, hostname).0;
    var req := SetCert(uuid, hostname, prevCertID, certID);
    PostSetCert(l.w, req);
    OnlyCertsTrans(w, l.w, Post(l.w, req).w);
  }

  lemma UnassignEffect(w: World, uuid: Uuid, hostname: string)
    ensures OnlyCerts(w, UnassignCertificate(w, uuid, hostname).w)
  {
    PostSetCert(w, SetCert(uuid, hostname, "", ""));
  }

  lemma AssignHealthy(w: World, uuid: Uuid, hostname: string, prevCertID: string)
    requires w.script == []
    ensures
      var best := BestCert(w.nas.certificates, hostname).0;
      var a := AssignCertificate(w, uuid, hostname, prevCertID);
      && a.w.script == [] && a.res == Ok(best)
      && a.w.nas == (if best == "" then w.nas
                     else w.nas.(services := SetService(w.nas.services, uuid, prevCertID, best)))
  {
    PostHealthy(w, ListCerts);
    var l := Post(w, ListCerts);
    var best := BestCert(w.nas.certificates, hostname).0;
    PostHealthy(l.w, SetCert(uuid, hostname, prevCertID, best));
  }

  lemma UnassignHealthy(w: World, uuid: Uuid, hostname: string)
    requires w.script == []
    ensures
      var u := UnassignCertificate(w, uuid, hostname);
      && u.w.script == [] && u.res == Ok(())
      && u.w.nas == w.nas.(services := WithoutServices(w.nas.services, uuid))
  {
    PostHealthy(w, SetCert(uuid, hostname, "", ""));
  }

  /** What is sent for it: the list, and then one request with record, host name, the
      certificate to replace and the one chosen; nothing more if none is. */
  lemma AssignSends(w: World, uuid: Uuid, hostname: string, prevCertID: string)
    requires w.script == []
    ensures
      var best, rs := BestCert(w.nas.certificates, hostname).0, w.nas.records;
      AssignCertificate(w, uuid, hostname, prevCertID).w.log == w.log + [Exchange(ListCerts, rs)]
        + if best == "" then [] else [Exchange(SetCert(uuid, hostname, prevCertID, best), rs)]
  {
    PostHealthy(w, ListCerts);
    var l := Post(w, ListCerts);
    PostHealthy(l.w, SetCert(uuid, hostname, prevCertID, BestCert(w.nas.certificates, hostname).0));
  }

  lemma {:induction false} SwapBrings(ss: seq<ServiceEntry>, a: ServiceEntry, b: ServiceEntry)
    requires a in ss
    ensures b in SwapService(ss, a, b)
  {
    if ss[0] != a {
      SwapBrings(ss[1..], a, b);
    }
  }

  lemma SetBrings(nas: Nas, uuid: Uuid, hostname: string, oldId: string, id: string)
    requires id != ""
    ensures ServiceEntry(uuid, id) in Apply(nas, SetCert(uuid, hostname, oldId, id)).nas.services
  {
    if oldId != "" && ServiceEntry(uuid, oldId) in nas.services {
      SwapBrings(nas.services, ServiceEntry(uuid, oldId), ServiceEntry(uuid, id));
    }
  }

  lemma {:induction false} RepeatedBrings(nas: Nas, uuid: Uuid, hostname: string, oldId: string, id: string, n: nat)
    requires id != "" && n > 0
    ensures ServiceEntry(uuid, id) in Repeated(nas, SetCert(uuid, hostname, oldId, id), n).services
    decreases n
  {
    var nas' := Apply(nas, SetCert(uuid, hostname, oldId, id)).nas;
    if n == 1 {
      SetBrings(nas, uuid, hostname, oldId, id);
      assert Repeated(nas', SetCert(uuid, hostname, oldId, id), 0) == nas';
    } else {
      RepeatedBrings(nas', uuid, hostname, oldId, id, n - 1);
    }
  }

  /** On any network: a certificate that is reported as assigned is the one chosen for the
      name, and DSM has a row that says so. */
  lemma ReportedIsThere(w: World, uuid: Uuid, hostname: string, prevCertID: string)
    ensures
      var a := AssignCertificate(w, uuid, hostname, prevCertID);
      a.res.Ok? ==>
        && a.res.value == BestCert(w.nas.certificates, hostname).0
        && (a.res.value != "" ==> ServiceEntry(uuid, a.res.value) in a.w.nas.services)
  {
    PostListCerts(w);
    var l := Post(w, ListCerts);
    var best := BestCert(w.nas.certificates, hostname).0;
    if l.reply.Data? && best != "" {
      var n := PostRepeats(l.w, SetCert(uuid, hostname, prevCertID, best));
      if n > 0 {
        RepeatedBrings(l.w.nas, uuid, hostname, prevCertID, best, n);
      }
    }
  }

  method DoAssignCertificate(c: Client, uuid: Uuid, hostname: string, prevCertID: string)
    returns (res: Result<string>)
    modifies c, c.net
    ensures Did(c.Snapshot(), res) == AssignCertificate(old(c.Snapshot()), uuid, hostname, prevCertID)
  {
    var reply := c.DoPost(ListCerts);
    match reply
    case Failure(f) => res := Err(f);
    case Dead => res := Stopped;
    case Data(answer) =>
      if !answer.Certs? {
        return Err(Unparseable);
      }
      var certID, _ := FindMatchingCert(answer.certs, hostname);
      if certID == "" {
        return Ok("");
      }
      var outcome := c.DoPost(SetCert(uuid, hostname, prevCertID, certID));
      match outcome
      case Data(_) => res := Ok(certID);
      case Failure(f) => res := Err(f);
      case Dead => res := Stopped;
  }

  method DoUnassignCertificate(c: Client, uuid: Uuid, hostname: string) returns (res: Result<()>)
    modifies c, c.net
    ensures Did(c.Snapshot(), res) == UnassignCertificate(old(c.Snapshot()), uuid, hostname)
  {
    var reply := c.DoPost(SetCert(uuid, hostname, "", ""));
    match reply
    case Data(_) => res := Ok(());
    case Failure(f) => res := Err(f);
    case Dead => res := Stopped;
  }
}
