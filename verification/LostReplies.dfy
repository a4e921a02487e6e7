/** Creates whose acknowledgement is lost: when the upsert finds its record again, and when it
    does not. */
module LostReplies {
  import opened Util
  import opened Dsm
  import opened Client
  import opened Proxy
  import opened Posts

  // ------------------------------------------------------------- the error text

  predicate DigitFree(s: string) {
    forall i | 0 <= i < |s| :: !('0' <= s[i] <= '9')
  }

  predicate Spells4154(s: string, i: int) {
    0 <= i && i + 4 <= |s| && s[i] == '4' && s[i + 1] == '1' && s[i + 2] == '5' && s[i + 3] == '4'
  }

  /** The digits 4154 stand somewhere in the text. */
  predicate Names4154(s: string) {
    exists i | 0 <= i < |s| :: Spells4154(s, i)
  }

  lemma ContainsIsNames(s: string)
    ensures Contains(s, "4154") <==> Names4154(s)
  {
    if i :| 0 <= i <= |s| && HasPrefix(s[i..], "4154") {
      var t := s[i..][..4];
      assert t[0] == s[i] && t[1] == s[i + 1] && t[2] == s[i + 2] && t[3] == s[i + 3];
      assert Spells4154(s, i);
    }
    if i :| 0 <= i < |s| && Spells4154(s, i) {
      assert s[i..][..4] == "4154";
      assert HasPrefix(s[i..], "4154");
    }
  }

  /** Text without digits around it does not matter. */
  lemma OnlyInside(a: string, m: string, b: string)
    requires DigitFree(a) && DigitFree(b)
    ensures Names4154(a + m + b) <==> Names4154(m)
  {
    var s := a + m + b;
    if i :| 0 <= i < |s| && Spells4154(s, i) {
      assert forall k | 0 <= k < |a| :: s[k] == a[k];
      assert forall k | |a| + |m| <= k < |s| :: s[k] == b[k - |a| - |m|] && !('0' <= s[k] <= '9');
      assert Spells4154(m, i - |a|);
    }
    if i :| 0 <= i < |m| && Spells4154(m, i) {
      assert Spells4154(s, |a| + i);
    }
  }

  lemma DigitFreeJoin(a: string, b: string)
    requires DigitFree(a) && DigitFree(b)
    ensures DigitFree(a + b)
  {
  }

  lemma PathsDigitFree(e: Endpoint)
    ensures DigitFree(Path(e))
  {
    match e
    case ProxyEndpoint => ProxyPath();
    case AclEndpoint => AclPath();
    case CertEndpoint =>
  }

  lemma ProxyPath()
    ensures DigitFree(Path(ProxyEndpoint))
  {
    var a, b := "/webapi/entry.cgi/SYNO.Core", ".AppPortal.ReverseProxy";
    DigitFreeJoin(a, b);
    assert Path(ProxyEndpoint) == a + b;
  }

  lemma AclPath()
    ensures DigitFree(Path(AclEndpoint))
  {
    var a, b := "/webapi/entry.cgi/SYNO.Core", ".AppPortal.AccessControl";
    DigitFreeJoin(a, b);
    assert Path(AclEndpoint) == a + b;
  }

  lemma CodeText(code: int, e: Endpoint)
    ensures Names4154(Text(ApiFault(code, e))) <==> Names4154(Decimal(code))
  {
    TailDigitFree(e);
    CodeBetween(code, e);
    OnlyInside("DSM API error ", Decimal(code), " at " + Path(e));
  }

  lemma CodeBetween(code: int, e: Endpoint)
    ensures Text(ApiFault(code, e)) == "DSM API error " + Decimal(code) + (" at " + Path(e))
  {
    var head, middle, tail := "DSM API error ", Decimal(code), Path(e);
    assert head + middle + " at " + tail == head + middle + (" at " + tail);
  }

  lemma TailDigitFree(e: Endpoint)
    ensures DigitFree(" at " + Path(e))
  {
    PathsDigitFree(e);
    DigitFreeJoin(" at ", Path(e));
  }

  lemma TransportText(text: string, e: Endpoint)
    ensures Names4154(Text(Transport(text, e))) <==> Names4154(text)
  {
    PathsDigitFree(e);
    DigitFreeJoin("POST ", Path(e));
    DigitFreeJoin("POST " + Path(e), ": ");
    OnlyInside("POST " + Path(e) + ": ", text, "");
    assert Text(Transport(text, e)) == "POST " + Path(e) + ": " + text + "";
  }

  lemma ReloginText(text: string)
    ensures Names4154(Text(ReloginFault(text))) <==> Names4154(text)
  {
    OnlyInside("re-login after HTML response: ", text, "");
    assert Text(ReloginFault(text)) == "re-login after HTML response: " + text + "";
  }

  lemma FixedText(s: string)
    requires DigitFree(s)
    ensures !Names4154(s)
  {
  }

  /** Which errors pass for DSM's "already exists": those with 4154 in the error code, written
      out, or in a text that came from outside. */
  lemma PassesForExisting(f: Fault)
    ensures IsAlreadyExists(f) <==>
      match f
      case ApiFault(code, _) => Names4154(Decimal(code))
      case Transport(text, _) => Names4154(text)
      case LoginFault(text) => Names4154(text)
      case ReloginFault(text) => Names4154(text)
      case _ => false
  {
    ContainsIsNames(Text(f));
    match f
    case ApiFault(code, e) => CodeText(code, e);
    case Transport(text, e) => TransportText(text, e);
    case LoginFault(text) =>
    case ReloginFault(text) => ReloginText(text);
    case UuidLost => FixedText(Text(f));
    case ProfileNotFound => FixedText(Text(f));
    case Unparseable => FixedText(Text(f));
  }

  lemma Code4154()
    ensures Decimal(4154) == "4154" && Names4154(Decimal(4154))
  {
    assert DecimalNat(4) == "4" && DecimalNat(41) == "41" && DecimalNat(415) == "415" && DecimalNat(4154) == "4154";
    assert Spells4154("4154", 0);
  }

  // ------------------------------------------------------------ the record itself

  /** The record of a rule, every field of it: defaults for what is left at zero or out. */
  predicate IsRecordOf(r: ProxyEntry, rule: ProxyRule) {
    && r.description == rule.description
    && r.frontend.fqdn == rule.sourceHost
    && r.frontend.port == (if rule.sourcePort == 0 then 443 else rule.sourcePort)
    && r.frontend.protocol == 1 && r.frontend.hsts
    && r.frontend.acl == rule.aclProfileID
    && r.backend.fqdn == rule.destinationHost && r.backend.port == rule.destinationPort
    && r.backend.protocol == (if rule.destinationHTTPS then 1 else 0)
    && r.connectTimeout == (if rule.connectTimeout == 0 then 60 else rule.connectTimeout)
    && r.readTimeout == (if rule.readTimeout == 0 then 60 else rule.readTimeout)
    && r.sendTimeout == (if rule.sendTimeout == 0 then 60 else rule.sendTimeout)
    && r.httpVersion == 1 && !r.interceptErrors
    && r.customizeHeaders == Some(
         if rule.customHeaders.Some? then rule.customHeaders.value
         else [CustomHeader("Upgrade", "$http_upgrade"), CustomHeader("Connection", "$connection_upgrade")])
  }

  /** The ten of its fields that are compared. */
  predicate SameTen(r: ProxyEntry, q: ProxyEntry) {
    && r.frontend.fqdn == q.frontend.fqdn && r.frontend.port == q.frontend.port && r.frontend.acl == q.frontend.acl
    && r.backend == q.backend
    && r.connectTimeout == q.connectTimeout && r.readTimeout == q.readTimeout && r.sendTimeout == q.sendTimeout
    && r.customizeHeaders == q.customizeHeaders
  }

  lemma DesiredIsRecord(rule: ProxyRule, u: Uuid, key: nat)
    ensures IsRecordOf(Desired(rule).(uuid := u, key := key), rule)
  {
  }

  lemma EqualMeansSameTen(r: ProxyEntry, q: ProxyEntry, rule: ProxyRule)
    requires IsRecordOf(q, rule)
    ensures ProxyRecordEqual(r, Desired(rule)) <==> SameTen(r, q)
  {
  }

  lemma WritesWhenDue(w: World, rule: ProxyRule)
    requires Sound(w.nas)
    ensures
      var at := At(w.nas.records, rule.description);
      var u := Upsert(w, rule);
      u.res.Ok? ==> (u.res.value.written <==> at == [] || !ProxyRecordEqual(at[0], Desired(rule)))
  {
    GetEffect(w, rule.description);
    var at := At(w.nas.records, rule.description);
    assert at != [] ==> at == [at[0]];
    var g := GetProxyRecord(w, rule.description);
    if g.res.Ok? && at == [] {
      CreateEffect(g.w, Desired(rule));
    } else if g.res.Ok? && !ProxyRecordEqual(at[0], Desired(rule)) {
      UpdateEffect(g.w, at[0], Desired(rule));
    }
  }

  /** What an upsert writes, on any network, is the record of its rule; and it writes exactly
      when the one that is there differs in one of the ten fields, or none is there. */
  lemma WritesRecord(w: World, rule: ProxyRule, q: ProxyEntry)
    requires Sound(w.nas) && IsRecordOf(q, rule)
    ensures
      var d := rule.description;
      var u := Upsert(w, rule);
      u.res.Ok? ==>
        && |At(u.w.nas.records, d)| == 1 && At(u.w.nas.records, d)[0].uuid == u.res.value.uuid
        && (u.res.value.written <==> At(w.nas.records, d) == [] || !SameTen(At(w.nas.records, d)[0], q))
        && (u.res.value.written ==> IsRecordOf(At(u.w.nas.records, d)[0], rule))
        && (!u.res.value.written ==> u.w.nas == w.nas)
  {
    UpsertEffect(w, rule);
    WritesWhenDue(w, rule);
    var at := At(w.nas.records, rule.description);
    if at != [] {
      EqualMeansSameTen(at[0], q, rule);
      DesiredIsRecord(rule, at[0].uuid, at[0].key);
    } else {
      DesiredIsRecord(rule, w.nas.next, w.nas.next);
    }
  }

  // --------------------------------------------------------------- a lost create

  /** No record of the rule, and its frontend free. */
  ghost predicate ToCreate(nas: Nas, rule: ProxyRule) {
    && Sound(nas) && At(nas.records, rule.description) == []
    && !exists r | r in nas.records ::
         r.frontend.fqdn == rule.sourceHost && r.frontend.port == if rule.sourcePort == 0 then 443 else rule.sourcePort
  }

  /** A plain answer, in a session or with a login to get one. */
  predicate Listed(ev: Event) {
    ev.login.Granted? && ev.fate == Answered(false)
  }

  lemma AnsweredFirst(w: World, req: Request, ev: Event, rest: seq<Event>)
    requires w.script == [ev] + rest && ev.login.Granted? && ev.fate.Answered?
    ensures
      var answer := Apply(w.nas, req).answer;
      var p := Post(w, req);
      && p.w.nas == Apply(w.nas, req).nas && p.w.script == rest
      && p.reply == if answer.Error? then Failure(ApiFault(answer.code, EndpointOf(req)))
           else if answer.Created? && ev.fate.terse then Data(Created(0)) else Data(answer)
  {
    assert w.script[0] == ev && w.script[1..] == rest;
    PostFirst(w, req);
  }

  lemma ListedFirst(w: World, d: string, ev: Event, rest: seq<Event>)
    requires w.script == [ev] + rest && Listed(ev)
    ensures
      var g := GetProxyRecord(w, d);
      && g.w.nas == w.nas && g.w.script == rest
      && g.res == Ok(if At(w.nas.records, d) == [] then None else Some(At(w.nas.records, d)[0]))
  {
    AnsweredFirst(w, List, ev, rest);
  }

  /** How the create ends: in full, in a terse answer, or on a network that is well again. */
  predicate Ends(last: seq<Event>) {
    last == [] || (|last| == 1 && last[0].login.Granted? && last[0].fate.Answered?)
  }

  lemma CreateAnswer(w: World, e: ProxyEntry, last: seq<Event>)
    requires w.script == last && Ends(last)
    ensures
      var p := Post(w, Create(e));
      && p.w.script == [] && p.w.nas == Apply(w.nas, Create(e)).nas
      && p.reply == if FrontendTaken(w.nas.records, e.frontend) then Failure(ApiFault(4154, ProxyEndpoint))
           else if last != [] && last[0].fate.terse then Data(Created(0)) else Data(Created(w.nas.next))
  {
    if last == [] {
      PostHealthy(w, Create(e));
    } else {
      assert w.script == [last[0]] + [];
      AnsweredFirst(w, Create(e), last[0], []);
    }
  }

  lemma CreatedThere(nas: Nas, e: ProxyEntry)
    requires Sound(nas) && At(nas.records, e.description) == [] && !FrontendTaken(nas.records, e.frontend)
    ensures
      var nas' := Apply(nas, Create(e)).nas;
      && FrontendTaken(nas'.records, e.frontend) && nas'.next == nas.next + 1
      && At(nas'.records, e.description) == [e.(uuid := nas.next, key := nas.next)]
      && Apply(nas', Create(e)).nas == nas'
  {
    CreateKeepsSound(nas, e);
    var rs' := Apply(nas, Create(e)).nas.records;
    var stored := e.(uuid := nas.next, key := nas.next);
    assert rs'[|nas.records|] == stored && SameFrontend(stored.frontend, e.frontend);
  }

  /** DSM says that the record is there, or leaves its UUID out; it is looked up. */
  lemma LookedUp(w: World, e: ProxyEntry, p: Posted)
    requires p == Post(w, Create(e)) && p.w.script == [] && At(p.w.nas.records, e.description) != []
    requires p.reply in {Failure(ApiFault(4154, ProxyEndpoint)), Data(Created(0))}
    ensures
      var c := CreateRecord(w, e);
      && c.w.script == [] && c.w.nas == p.w.nas
      && c.res == Ok(Upserted(At(p.w.nas.records, e.description)[0].uuid, true))
  {
    PassesForExisting(ApiFault(4154, ProxyEndpoint));
    Code4154();
    GetHealthy(p.w, e.description);
  }

  /** The create itself, through pages and to one of these ends. */
  lemma LostCreate(w: World, e: ProxyEntry, pages: seq<Event>, last: seq<Event>)
    requires Sound(w.nas) && At(w.nas.records, e.description) == [] && !FrontendTaken(w.nas.records, e.frontend)
    requires w.script == pages + last && ServerPages(pages) && Ends(last)
    ensures
      var c := CreateRecord(w, e);
      && c.w.script == [] && c.res == Ok(Upserted(w.nas.next, true))
      && c.w.nas == Apply(w.nas, Create(e)).nas
  {
    CreatedThere(w.nas, e);
    var v := PagesPass(w, Create(e), pages, last);
    CreateAnswer(v, e, last);
    var p := Post(w, Create(e));
    if p.reply == Data(Created(w.nas.next)) {
      UuidLaterThanNone(w.nas);
    } else {
      LookedUp(w, e, p);
    }
  }

  lemma UuidLaterThanNone(nas: Nas)
    requires Sound(nas)
    ensures nas.next != NO_UUID
  {
  }

  /** A lost acknowledgement does no harm. The create is answered with any number of error
      pages, DSM having acted on none, one or several of the requests; then in full, or without
      the UUID, or by "already exists". The upsert succeeds with the UUID of the one record. */
  lemma LostAcknowledgement(w: World, rule: ProxyRule, first: Event, pages: seq<Event>, last: seq<Event>)
    requires ToCreate(w.nas, rule) && w.script == [first] + (pages + last)
    requires Listed(first) && ServerPages(pages) && Ends(last)
    ensures
      var u := Upsert(w, rule);
      var at := At(u.w.nas.records, rule.description);
      && u.res == Ok(Upserted(w.nas.next, true))
      && |at| == 1 && at[0].uuid == w.nas.next && IsRecordOf(at[0], rule)
  {
    var e := Desired(rule);
    ListedFirst(w, rule.description, first, pages + last);
    CreatedThere(w.nas, e);
    LostCreate(GetProxyRecord(w, rule.description).w, e, pages, last);
  }

  /** The first of the two, then a break: an error at once. */
  lemma BreaksOff(w: World, rule: ProxyRule, first: Event, ev: Event)
    requires ToCreate(w.nas, rule) && w.script == [first, ev] && Listed(first)
    requires ev.login.Granted? && ev.fate.Broken? && !Names4154(ev.fate.text)
    ensures
      var u := Upsert(w, rule);
      && u.res == Err(Transport(ev.fate.text, ProxyEndpoint)) && |u.w.log| == |w.log| + 2 && u.w.script == []
      && u.w.nas == if ev.fate.applied then Apply(w.nas, Create(Desired(rule))).nas else w.nas
  {
    var e := Desired(rule);
    assert w.script == [first] + [ev] && [ev][0] == ev && [ev][1..] == [];
    ListedFirst(w, rule.description, first, [ev]);
    var g := GetProxyRecord(w, rule.description);
    PostFirst(g.w, Create(e));
    PassesForExisting(Transport(ev.fate.text, ProxyEndpoint));
    OneExchange(w, List);
    OneExchange(g.w, Create(e));
  }

  /** A connection that breaks under the create is an error at once, whatever DSM has done; no
      lookup follows. But the next upsert on a network that is well finishes the work: it
      finds the record and leaves it, or creates it. */
  lemma BrokenCreate(w: World, rule: ProxyRule, first: Event, ev: Event)
    requires ToCreate(w.nas, rule) && w.script == [first, ev] && Listed(first)
    requires ev.login.Granted? && ev.fate.Broken? && !Names4154(ev.fate.text)
    ensures
      var u := Upsert(w, rule);
      var again := Upsert(u.w, rule);
      && u.res == Err(Transport(ev.fate.text, ProxyEndpoint)) && |u.w.log| == |w.log| + 2
      && (At(u.w.nas.records, rule.description) != [] <==> ev.fate.applied)
      && again.res == Ok(Upserted(w.nas.next, !ev.fate.applied))
      && |At(again.w.nas.records, rule.description)| == 1
      && IsRecordOf(At(again.w.nas.records, rule.description)[0], rule)
  {
    BreaksOff(w, rule, first, ev);
    CreatedThere(w.nas, Desired(rule));
    BrokenThenWell(w, rule, Upsert(w, rule).w, ev.fate.applied);
  }

  lemma OneExchange(w: World, req: Request)
    requires w.script != [] && w.script[0].login.Granted? && !Retryable(w.script[0].fate)
    ensures |Post(w, req).w.log| == |w.log| + 1
  {
    assert Head(w.script) == w.script[0];
  }

  lemma SelfEqual(rule: ProxyRule, u: Uuid, key: nat)
    ensures ProxyRecordEqual(Desired(rule).(uuid := u, key := key), Desired(rule))
  {
  }

  lemma BrokenThenWell(w: World, rule: ProxyRule, w': World, applied: bool)
    requires ToCreate(w.nas, rule) && w'.script == []
    requires w'.nas == if applied then Apply(w.nas, Create(Desired(rule))).nas else w.nas
    ensures
      var again := Upsert(w', rule);
      && again.res == Ok(Upserted(w.nas.next, !applied))
      && |At(again.w.nas.records, rule.description)| == 1
      && IsRecordOf(At(again.w.nas.records, rule.description)[0], rule)
  {
    var e := Desired(rule);
    CreatedThere(w.nas, e);
    CreateKeepsSound(w.nas, e);
    SelfEqual(rule, w.nas.next, w.nas.next);
    DesiredIsRecord(rule, w.nas.next, w.nas.next);
    UpsertHealthy(w', rule);
  }
}
