/** Reverse proxy records: lookup, upsert and delete by description. */
module Proxy {
  import opened Util
  import opened Dsm
  import opened Client

  /** A desired proxy record, before defaults. */
  datatype ProxyRule = ProxyRule(
    description: string,
    sourceHost: string,
    sourcePort: int,
    destinationHost: string,
    destinationPort: int,
    destinationHTTPS: bool,
    aclProfileID: string,
    customHeaders: Option<seq<CustomHeader>>,
    connectTimeout: int,
    readTimeout: int,
    sendTimeout: int)

  datatype Upserted = Upserted(uuid: Uuid, written: bool)

  function DefaultWebSocketHeaders(): seq<CustomHeader> {
    [CustomHeader("Upgrade", "$http_upgrade"), CustomHeader("Connection", "$connection_upgrade")]
  }

  function Or(n: int, default: int): int {
    if n == 0 then default else n
  }

  function WithDefaults(r: ProxyRule): ProxyRule {
    r.(sourcePort := Or(r.sourcePort, 443),
       connectTimeout := Or(r.connectTimeout, 60),
       readTimeout := Or(r.readTimeout, 60),
       sendTimeout := Or(r.sendTimeout, 60),
       customHeaders := if r.customHeaders.None? then Some(DefaultWebSocketHeaders()) else r.customHeaders)
  }

  /** The entry sent for a rule that already has its defaults. */
  function EntryOf(r: ProxyRule): ProxyEntry {
    ProxyEntry(
      NO_UUID, 0, r.description, r.connectTimeout, r.readTimeout, r.sendTimeout, 1, false,
      ProxyFrontend(r.aclProfileID, r.sourceHost, r.sourcePort, 1, true),
      ProxyBackend(r.destinationHost, r.destinationPort, if r.destinationHTTPS then 1 else 0),
      r.customHeaders)
  }

  function Desired(rule: ProxyRule): ProxyEntry {
    EntryOf(WithDefaults(rule))
  }

  /** The ten fields the operator manages. */
  predicate ProxyRecordEqual(existing: ProxyEntry, desired: ProxyEntry) {
    && existing.frontend.fqdn == desired.frontend.fqdn
    && existing.frontend.port == desired.frontend.port
    && existing.frontend.acl == desired.frontend.acl
    && existing.backend.fqdn == desired.backend.fqdn
    && existing.backend.port == desired.backend.port
    && existing.backend.protocol == desired.backend.protocol
    && existing.connectTimeout == desired.connectTimeout
    && existing.readTimeout == desired.readTimeout
    && existing.sendTimeout == desired.sendTimeout
    && existing.customizeHeaders == desired.customizeHeaders
  }

  /** The text search the client uses to recognise DSM's "already exists". */
  predicate IsAlreadyExists(f: Fault) {
    Contains(Text(f), "4154")
  }

  // ------------------------------------------------------------- operations

  function First(rs: seq<ProxyEntry>, d: string): Option<ProxyEntry> {
    var at := At(rs, d);
    if at == [] then None else Some(at[0])
  }

  function ListProxyRecords(w: World): Did<seq<ProxyEntry>> {
    var p := Post(w, List);
    match p.reply
    case Data(answer) => Did(p.w, if answer.Entries? then Ok(answer.entries) else Err(Unparseable))
    case Failure(f) => Did(p.w, Err(f))
    case Dead => Did(p.w, Stopped)
  }

  function GetProxyRecord(w: World, d: string): Did<Option<ProxyEntry>> {
    var l := ListProxyRecords(w);
    match l.res
    case Ok(es) => Did(l.w, Ok(First(es, d)))
    case Err(f) => Did(l.w, Err(f))
    case Stopped => Did(l.w, Stopped)
  }

  /** The UUID lookup after a create whose answer carried none, or was lost. */
  function LookupCreated(w: World, d: string, fault: Fault): Did<Upserted> {
    var g := GetProxyRecord(w, d);
    match g.res
    case Ok(Some(rec)) => Did(g.w, Ok(Upserted(rec.uuid, true)))
    case Ok(None) => Did(g.w, Err(fault))
    case Err(_) => Did(g.w, Err(fault))
    case Stopped => Did(g.w, Stopped)
  }

  /** What follows the create request; `known` is DSM saying the record is there. */
  function AfterCreate(p: Posted, entry: ProxyEntry, known: bool): Did<Upserted> {
    match p.reply
    case Data(answer) =>
      if answer.Created? && answer.uuid != NO_UUID then Did(p.w, Ok(Upserted(answer.uuid, true)))
      else LookupCreated(p.w, entry.description, UuidLost)
    case Failure(f) =>
      if known then LookupCreated(p.w, entry.description, f) else Did(p.w, Err(f))
    case Dead => Did(p.w, Stopped)
  }

  function CreateRecord(w: World, entry: ProxyEntry): Did<Upserted> {
    var p := Post(w, Create(entry));
    AfterCreate(p, entry, p.reply.Failure? && IsAlreadyExists(p.reply.fault))
  }

  function UpdateRecord(w: World, existing: ProxyEntry, desired: ProxyEntry): Did<Upserted> {
    var p := Post(w, Update(desired.(uuid := existing.uuid, key := existing.key)));
    match p.reply
    case Data(_) => Did(p.w, Ok(Upserted(existing.uuid, true)))
    case Failure(f) => Did(p.w, Err(f))
    case Dead => Did(p.w, Stopped)
  }

  function Upsert(w: World, rule: ProxyRule): Did<Upserted> {
    var entry := Desired(rule);
    var g := GetProxyRecord(w, entry.description);
    match g.res
    case Err(f) => Did(g.w, Err(f))
    case Stopped => Did(g.w, Stopped)
    case Ok(None) => CreateRecord(g.w, entry)
    case Ok(Some(existing)) =>
      if ProxyRecordEqual(existing, entry) then Did(g.w, Ok(Upserted(existing.uuid, false)))
      else UpdateRecord(g.w, existing, entry)
  }

  function DeleteProxyRecord(w: World, d: string): Did<bool> {
    var g := GetProxyRecord(w, d);
    match g.res
    case Err(f) => Did(g.w, Err(f))
    case Stopped => Did(g.w, Stopped)
    case Ok(None) => Did(g.w, Ok(false))
    case Ok(Some(existing)) =>
      var p := Post(g.w, Delete(existing.uuid));
      match p.reply
      case Data(_) => Did(p.w, Ok(true))
      case Failure(f) => Did(p.w, Err(f))
      case Dead => Did(p.w, Stopped)
  }

  // ----------------------------------------------------------- lost replies

  lemma GetEffect(w: World, d: string)
    ensures
      var g := GetProxyRecord(w, d);
      && OnlyRead(w, g.w)
      && (g.res.Ok? ==> g.res.value == First(w.nas.records, d))
  {
    PostEffect(w, List);
    LogWeaken(w.log, Post(w, List).w.log, x => Arrived(w.nas, w.nas, List, x), x => Read(w.nas.records, x));
  }

  /** The record an upsert leaves behind when it writes. */
  function Stored(nas: Nas, e: ProxyEntry): ProxyEntry {
    var at := At(nas.records, e.description);
    if at == [] then e.(uuid := nas.next, key := nas.next)
    else e.(uuid := at[0].uuid, key := at[0].key)
  }

  predicate WritesFor(req: Request, d: string) {
    (req.Create? || req.Update?) && req.entry.description == d
  }

  /** One exchange of an upsert of `d`: a read, or a write of `d`, and DSM before or after. */
  ghost predicate UpsertStep(rs: seq<ProxyEntry>, rs': seq<ProxyEntry>, d: string, x: Exchange) {
    (IsRead(x.req) || WritesFor(x.req, d)) && (x.after == rs || x.after == rs')
  }

  /** Everything of DSM but the record list and the UUID counter. */
  ghost predicate SameRest(nas: Nas, nas': Nas) {
    && nas'.services == nas.services
    && nas'.certificates == nas.certificates
    && nas'.aclProfiles == nas.aclProfiles
    && nas'.strict == nas.strict
    && nas.next <= nas'.next
  }

  /** From `nas` to `nas'` at most the record described by `e` was written, once. */
  ghost predicate Touched(nas: Nas, nas': Nas, e: ProxyEntry) {
    && Sound(nas')
    && SameRest(nas, nas')
    && Drop(nas'.records, {e.description}) == Drop(nas.records, {e.description})
    && (nas' == nas || At(nas'.records, e.description) == [Stored(nas, e)])
  }

  /** `Touched`, with the log to show for it. */
  ghost predicate UpsertedWorld(w: World, w': World, e: ProxyEntry) {
    && Touched(w.nas, w'.nas, e)
    && LogGrows(w.log, w'.log, x => UpsertStep(w.nas.records, w'.nas.records, e.description, x))
  }

  lemma ReadThenUpsert(w: World, w1: World, w2: World, e: ProxyEntry)
    requires OnlyRead(w, w1) && UpsertedWorld(w1, w2, e)
    ensures UpsertedWorld(w, w2, e)
  {
    var p := x => UpsertStep(w.nas.records, w2.nas.records, e.description, x);
    LogWeaken(w.log, w1.log, x => Read(w.nas.records, x), p);
    LogGrowsTrans(w.log, w1.log, w2.log, p);
  }

  lemma UpsertThenRead(w: World, w1: World, w2: World, e: ProxyEntry)
    requires UpsertedWorld(w, w1, e) && OnlyRead(w1, w2)
    ensures UpsertedWorld(w, w2, e)
  {
    var p := x => UpsertStep(w.nas.records, w2.nas.records, e.description, x);
    LogWeaken(w1.log, w2.log, x => Read(w1.nas.records, x), p);
    LogGrowsTrans(w.log, w1.log, w2.log, p);
  }

  lemma UpdateEffect(w: World, existing: ProxyEntry, e: ProxyEntry)
    requires Sound(w.nas) && At(w.nas.records, e.description) == [existing]
    ensures
      var u := UpdateRecord(w, existing, e);
      && UpsertedWorld(w, u.w, e)
      && (u.res.Ok? ==>
            && u.res.value == Upserted(existing.uuid, true)
            && At(u.w.nas.records, e.description) == [Stored(w.nas, e)])
  {
    var sent := e.(uuid := existing.uuid, key := existing.key);
    AtMembers(w.nas.records, e.description);
    assert existing.description == e.description by { assert existing in [existing]; }
    UpdateKeepsSound(w.nas, existing, sent);
    PostEffect(w, Update(sent));
    var w' := Post(w, Update(sent)).w;
    LogWeaken(w.log, w'.log, x => Arrived(w.nas, w'.nas, Update(sent), x),
      x => UpsertStep(w.nas.records, w'.nas.records, e.description, x));
  }

  /** A create whose frontend is free, however often it is repeated. */
  lemma CreatePosts(w: World, e: ProxyEntry)
    requires Sound(w.nas) && At(w.nas.records, e.description) == []
    ensures
      var p := Post(w, Create(e));
      && UpsertedWorld(w, p.w, e)
      && (p.reply.Data? ==>
            && At(p.w.nas.records, e.description) == [Stored(w.nas, e)]
            && p.reply.answer.Created?
            && p.reply.answer.uuid in {NO_UUID, w.nas.next})
  {
    var p := Post(w, Create(e));
    PostEffect(w, Create(e));
    if !FrontendTaken(w.nas.records, e.frontend) {
      CreateKeepsSound(w.nas, e);
      var stored := e.(uuid := w.nas.next, key := w.nas.next);
      var rs' := Apply(w.nas, Create(e)).nas.records;
      assert rs'[|w.nas.records|] == stored && SameFrontend(stored.frontend, e.frontend);
      assert FrontendTaken(rs', e.frontend);
    }
    LogWeaken(w.log, p.w.log, x => Arrived(w.nas, p.w.nas, Create(e), x),
      x => UpsertStep(w.nas.records, p.w.nas.records, e.description, x));
  }

  lemma LookupEffect(w: World, d: string, fault: Fault)
    ensures
      var l := LookupCreated(w, d, fault);
      && OnlyRead(w, l.w)
      && (l.res.Ok? ==> At(w.nas.records, d) != [] && l.res.value == Upserted(At(w.nas.records, d)[0].uuid, true))
  {
    GetEffect(w, d);
  }

  lemma AfterCreateEffect(w: World, e: ProxyEntry, known: bool)
    requires Sound(w.nas) && At(w.nas.records, e.description) == []
    ensures
      var c := AfterCreate(Post(w, Create(e)), e, known);
      && UpsertedWorld(w, c.w, e)
      && (c.res.Ok? ==>
            && c.res.value == Upserted(Stored(w.nas, e).uuid, true)
            && At(c.w.nas.records, e.description) == [Stored(w.nas, e)])
  {
    CreatePosts(w, e);
    var p := Post(w, Create(e));
    match p.reply
    case Data(answer) =>
      LookupEffect(p.w, e.description, UuidLost);
      UpsertThenRead(w, p.w, LookupCreated(p.w, e.description, UuidLost).w, e);
    case Failure(f) =>
      LookupEffect(p.w, e.description, f);
      UpsertThenRead(w, p.w, LookupCreated(p.w, e.description, f).w, e);
    case Dead =>
  }

  lemma CreateEffect(w: World, e: ProxyEntry)
    requires Sound(w.nas) && At(w.nas.records, e.description) == []
    ensures
      var c := CreateRecord(w, e);
      && UpsertedWorld(w, c.w, e)
      && (c.res.Ok? ==>
            && c.res.value == Upserted(Stored(w.nas, e).uuid, true)
            && At(c.w.nas.records, e.description) == [Stored(w.nas, e)])
  {
    var p := Post(w, Create(e));
    AfterCreateEffect(w, e, p.reply.Failure? && IsAlreadyExists(p.reply.fault));
  }

  /** The upsert law. Whatever the network does: other records are untouched and
      descriptions stay unique; DSM holds the old record or the desired one, never
      both; and success means exactly one record, with the returned UUID and all
      managed fields as desired. */
  lemma UpsertEffect(w: World, rule: ProxyRule)
    requires Sound(w.nas)
    ensures
      var e := Desired(rule);
      var u := Upsert(w, rule);
      var at' := At(u.w.nas.records, e.description);
      && UpsertedWorld(w, u.w, e)
      && (u.res.Ok? ==>
            && |at'| == 1 && at'[0].uuid == u.res.value.uuid && ProxyRecordEqual(at'[0], e)
            && (u.res.value.written ==> at' == [Stored(w.nas, e)])
            && (!u.res.value.written ==> OnlyRead(w, u.w)))
  {
    var e := Desired(rule);
    var g := GetProxyRecord(w, e.description);
    GetEffect(w, e.description);
    var at := At(w.nas.records, e.description);
    assert UpsertedWorld(g.w, g.w, e);
    ReadThenUpsert(w, g.w, g.w, e);
    if g.res.Ok? {
      if at == [] {
        CreateEffect(g.w, e);
        ReadThenUpsert(w, g.w, CreateRecord(g.w, e).w, e);
      } else {
        assert at == [at[0]];
        if !ProxyRecordEqual(at[0], e) {
          UpdateEffect(g.w, at[0], e);
          ReadThenUpsert(w, g.w, UpdateRecord(g.w, at[0], e).w, e);
        }
      }
    }
  }

  // ----------------------------------------------------------------- delete

  /** One exchange of a delete of `d`. */
  ghost predicate DeleteStep(rs: seq<ProxyEntry>, rs': seq<ProxyEntry>, x: Exchange) {
    (IsRead(x.req) || x.req.Delete?) && (x.after == rs || x.after == rs')
  }

  /** The delete law: the record list is as before or without `d`'s record, nothing
      else changes, and success means `d` is gone. */
  lemma DeleteEffect(w: World, d: string)
    requires Sound(w.nas)
    ensures
      var r := DeleteProxyRecord(w, d);
      && Sound(r.w.nas)
      && (r.w.nas == w.nas || r.w.nas == w.nas.(records := Drop(w.nas.records, {d})))
      && (r.res.Ok? ==>
            && r.w.nas.records == Drop(w.nas.records, {d})
            && r.res.value == (At(w.nas.records, d) != []))
      && LogGrows(w.log, r.w.log, x => DeleteStep(w.nas.records, r.w.nas.records, x))
  {
    var g := GetProxyRecord(w, d);
    var r := DeleteProxyRecord(w, d);
    GetEffect(w, d);
    var p := x => DeleteStep(w.nas.records, r.w.nas.records, x);
    LogWeaken(w.log, g.w.log, x => Read(w.nas.records, x), p);
    var at := At(w.nas.records, d);
    if at == [] {
      DropNothing(w.nas.records, {d});
    } else if g.res.Ok? {
      assert at == [at[0]];
      AtMembers(w.nas.records, d);
      assert at[0].description == d by { assert at[0] in at; }
      DeleteKeepsSound(g.w.nas, at[0]);
      PostEffect(g.w, Delete(at[0].uuid));
      LogWeaken(g.w.log, r.w.log, x => Arrived(g.w.nas, r.w.nas, Delete(at[0].uuid), x), p);
      LogGrowsTrans(w.log, g.w.log, r.w.log, p);
    }
  }

  // ------------------------------------------------------- healthy network

  lemma GetHealthy(w: World, d: string)
    requires w.script == []
    ensures
      var g := GetProxyRecord(w, d);
      && g.w.script == [] && g.w.nas == w.nas
      && g.res == Ok(First(w.nas.records, d))
  {
    PostHealthy(w, List);
  }

  /** The record list an upsert leaves at its description on a healthy network. */
  function Settled(nas: Nas, e: ProxyEntry): seq<ProxyEntry> {
    var at := At(nas.records, e.description);
    if at != [] && ProxyRecordEqual(at[0], e) then at else [Stored(nas, e)]
  }

  /** On a healthy network an upsert fails exactly when it has to create a record
      whose frontend is taken. */
  lemma UpsertHealthy(w: World, rule: ProxyRule)
    requires w.script == [] && Sound(w.nas)
    ensures
      var e := Desired(rule);
      var at := At(w.nas.records, e.description);
      var u := Upsert(w, rule);
      && u.w.script == []
      && !u.res.Stopped?
      && (u.res.Ok? <==> at != [] || !FrontendTaken(w.nas.records, e.frontend))
      && (u.res.Ok? ==>
            && At(u.w.nas.records, e.description) == Settled(w.nas, e)
            && u.res.value.uuid == Settled(w.nas, e)[0].uuid
            && (u.res.value.written <==> at == [] || !ProxyRecordEqual(at[0], e)))
      && (u.res.Err? ==> u.w.nas == w.nas)
  {
    var e := Desired(rule);
    var at := At(w.nas.records, e.description);
    var g := GetProxyRecord(w, e.description);
    GetHealthy(w, e.description);
    UpsertEffect(w, rule);
    if at == [] {
      CreateHealthy(g.w, e);
    } else if !ProxyRecordEqual(at[0], e) {
      assert at == [at[0]];
      UpdateHealthy(g.w, at[0], e);
    }
  }

  lemma UpdateHealthy(w: World, existing: ProxyEntry, e: ProxyEntry)
    requires w.script == [] && Sound(w.nas) && At(w.nas.records, e.description) == [existing]
    ensures
      var u := UpdateRecord(w, existing, e);
      u.w.script == [] && u.res == Ok(Upserted(existing.uuid, true))
  {
    var sent := e.(uuid := existing.uuid, key := existing.key);
    AtMembers(w.nas.records, e.description);
    assert existing.description == e.description by { assert existing in [existing]; }
    UpdateKeepsSound(w.nas, existing, sent);
    PostHealthy(w, Update(sent));
  }

  lemma CreateHealthy(w: World, e: ProxyEntry)
    requires w.script == [] && Sound(w.nas) && At(w.nas.records, e.description) == []
    ensures
      var c := CreateRecord(w, e);
      && c.w.script == []
      && (if FrontendTaken(w.nas.records, e.frontend) then c.res.Err? && c.w.nas == w.nas
          else c.res == Ok(Upserted(w.nas.next, true)))
  {
    var p := Post(w, Create(e));
    PostHealthy(w, Create(e));
    var known := p.reply.Failure? && IsAlreadyExists(p.reply.fault);
    assert CreateRecord(w, e) == AfterCreate(p, e, known);
    if FrontendTaken(w.nas.records, e.frontend) {
      GetHealthy(p.w, e.description);
    }
  }

  lemma DeleteHealthy(w: World, d: string)
    requires w.script == [] && Sound(w.nas)
    ensures
      var r := DeleteProxyRecord(w, d);
      && r.w.script == []
      && r.res.Ok?
      && r.w.nas == w.nas.(records := Drop(w.nas.records, {d}))
  {
    GetHealthy(w, d);
    DeleteEffect(w, d);
    var g := GetProxyRecord(w, d);
    var at := At(w.nas.records, d);
    if at != [] {
      assert at == [at[0]];
      AtMembers(w.nas.records, d);
      assert at[0].description == d by { assert at[0] in at; }
      DeleteKeepsSound(g.w.nas, at[0]);
      PostHealthy(g.w, Delete(at[0].uuid));
    } else {
      DropNothing(w.nas.records, {d});
    }
  }

  // ---------------------------------------------------------------- methods

  /** The scan of the listed records. */
  method FindByDescription(es: seq<ProxyEntry>, d: string) returns (r: Option<ProxyEntry>)
    ensures r == First(es, d)
  {
    var i := 0;
    while i < |es|
      invariant 0 <= i <= |es|
      invariant At(es, d) == At(es[i..], d)
    {
      if es[i].description == d {
        return Some(es[i]);
      }
      assert es[i..][1..] == es[i + 1..];
      i := i + 1;
    }
    r := None;
  }

  method DoGetProxyRecord(c: Client, d: string) returns (res: Result<Option<ProxyEntry>>)
    modifies c, c.net
    ensures Did(c.Snapshot(), res) == GetProxyRecord(old(c.Snapshot()), d)
  {
    var reply := c.DoPost(List);
    match reply
    case Data(answer) =>
      if answer.Entries? {
        var rec := FindByDescription(answer.entries, d);
        res := Ok(rec);
      } else {
        res := Err(Unparseable);
      }
    case Failure(f) => res := Err(f);
    case Dead => res := Stopped;
  }

  method DoLookupCreated(c: Client, d: string, fault: Fault) returns (res: Result<Upserted>)
    modifies c, c.net
    ensures Did(c.Snapshot(), res) == LookupCreated(old(c.Snapshot()), d, fault)
  {
    var got := DoGetProxyRecord(c, d);
    match got
    case Ok(Some(rec)) => res := Ok(Upserted(rec.uuid, true));
    case Ok(None) => res := Err(fault);
    case Err(_) => res := Err(fault);
    case Stopped => res := Stopped;
  }

  method DoCreateRecord(c: Client, entry: ProxyEntry) returns (res: Result<Upserted>)
    modifies c, c.net
    ensures Did(c.Snapshot(), res) == CreateRecord(old(c.Snapshot()), entry)
  {
    var reply := c.DoPost(Create(entry));
    match reply
    case Data(answer) =>
      if answer.Created? && answer.uuid != NO_UUID {
        res := Ok(Upserted(answer.uuid, true));
      } else {
        res := DoLookupCreated(c, entry.description, UuidLost);
      }
    case Failure(f) =>
      if IsAlreadyExists(f) {
        res := DoLookupCreated(c, entry.description, f);
      } else {
        res := Err(f);
      }
    case Dead => res := Stopped;
  }

  method DoUpsert(c: Client, rule: ProxyRule) returns (res: Result<Upserted>)
    modifies c, c.net
    ensures Did(c.Snapshot(), res) == Upsert(old(c.Snapshot()), rule)
  {
    var entry := Desired(rule);
    var got := DoGetProxyRecord(c, entry.description);
    match got
    case Err(f) => res := Err(f);
    case Stopped => res := Stopped;
    case Ok(None) => res := DoCreateRecord(c, entry);
    case Ok(Some(existing)) =>
      if ProxyRecordEqual(existing, entry) {
        res := Ok(Upserted(existing.uuid, false));
      } else {
        var reply := c.DoPost(Update(entry.(uuid := existing.uuid, key := existing.key)));
        match reply
        case Data(_) => res := Ok(Upserted(existing.uuid, true));
        case Failure(f) => res := Err(f);
        case Dead => res := Stopped;
      }
  }

  method DoDeleteProxyRecord(c: Client, d: string) returns (res: Result<bool>)
    modifies c, c.net
    ensures Did(c.Snapshot(), res) == DeleteProxyRecord(old(c.Snapshot()), d)
  {
    var got := DoGetProxyRecord(c, d);
    match got
    case Err(f) => res := Err(f);
    case Stopped => res := Stopped;
    case Ok(None) => res := Ok(false);
    case Ok(Some(existing)) =>
      var reply := c.DoPost(Delete(existing.uuid));
      match reply
      case Data(_) => res := Ok(true);
      case Failure(f) => res := Err(f);
      case Dead => res := Stopped;
  }
}
