/** The DSM side: reverse proxy records, certificate services, access control
    profiles, and what DSM does with one request. */
module Dsm {
  import opened Util

  /** DSM allocates identifiers from a counter; 0 stands for the empty string. */
  type Uuid = nat
  const NO_UUID: Uuid := 0

  const ERR_EXISTS := 4154
  const ERR_UNKNOWN := 4150
  const ERR_SESSION := 119

  datatype CustomHeader = CustomHeader(name: string, value: string)

  datatype ProxyFrontend =
    ProxyFrontend(acl: string, fqdn: string, port: int, protocol: int, hsts: bool)

  datatype ProxyBackend = ProxyBackend(fqdn: string, port: int, protocol: int)

  datatype ProxyEntry = ProxyEntry(
    uuid: Uuid,
    key: nat,
    description: string,
    connectTimeout: int,
    readTimeout: int,
    sendTimeout: int,
    httpVersion: int,
    interceptErrors: bool,
    frontend: ProxyFrontend,
    backend: ProxyBackend,
    customizeHeaders: Option<seq<CustomHeader>>)

  datatype Certificate =
    Certificate(id: string, desc: string, isDefault: bool, commonName: string, subAltName: seq<string>)

  datatype AclProfile = AclProfile(uuid: string, name: string)

  /** One row of the certificate settings: which certificate a record uses. */
  datatype ServiceEntry = ServiceEntry(uuid: Uuid, cert: string)

  /** `strict` says whether DSM reports an error when asked to delete an unknown UUID. */
  datatype Nas = Nas(
    records: seq<ProxyEntry>,
    next: Uuid,
    services: seq<ServiceEntry>,
    certificates: seq<Certificate>,
    aclProfiles: seq<AclProfile>,
    strict: bool)

  datatype Request =
    | List
    | Create(entry: ProxyEntry)
    | Update(entry: ProxyEntry)
    | Delete(uuid: Uuid)
    | ListCerts
    | ListAcls
    | SetCert(service: Uuid, displayName: string, oldId: string, id: string)

  predicate IsRead(req: Request) {
    req.List? || req.ListCerts? || req.ListAcls?
  }

  datatype Answer =
    | Entries(entries: seq<ProxyEntry>)
    | Created(uuid: Uuid)
    | Done
    | Certs(certs: seq<Certificate>)
    | Acls(acls: seq<AclProfile>)
    | Error(code: int)

  datatype Applied = Applied(nas: Nas, answer: Answer)

  // ---------------------------------------------------------------- records

  /** The records carrying description `d`, in list order. */
  function At(rs: seq<ProxyEntry>, d: string): seq<ProxyEntry> {
    if rs == [] then []
    else if rs[0].description == d then [rs[0]] + At(rs[1..], d)
    else At(rs[1..], d)
  }

  /** The records whose description is outside `ds`, in list order. */
  function Drop(rs: seq<ProxyEntry>, ds: set<string>): seq<ProxyEntry> {
    if rs == [] then []
    else if rs[0].description in ds then Drop(rs[1..], ds)
    else [rs[0]] + Drop(rs[1..], ds)
  }

  predicate HasUuid(rs: seq<ProxyEntry>, u: Uuid) {
    exists r | r in rs :: r.uuid == u
  }

  function Replace(rs: seq<ProxyEntry>, e: ProxyEntry): seq<ProxyEntry> {
    if rs == [] then []
    else [if rs[0].uuid == e.uuid then e else rs[0]] + Replace(rs[1..], e)
  }

  function Without(rs: seq<ProxyEntry>, u: Uuid): seq<ProxyEntry> {
    if rs == [] then []
    else if rs[0].uuid == u then Without(rs[1..], u)
    else [rs[0]] + Without(rs[1..], u)
  }

  predicate SameFrontend(a: ProxyFrontend, b: ProxyFrontend) {
    a.fqdn == b.fqdn && a.port == b.port
  }

  predicate FrontendTaken(rs: seq<ProxyEntry>, f: ProxyFrontend) {
    exists r | r in rs :: SameFrontend(r.frontend, f)
  }

  // --------------------------------------------------------------- services

  function CertsOf(ss: seq<ServiceEntry>, u: Uuid): seq<string> {
    if ss == [] then []
    else if ss[0].uuid == u then [ss[0].cert] + CertsOf(ss[1..], u)
    else CertsOf(ss[1..], u)
  }

  function WithoutServices(ss: seq<ServiceEntry>, u: Uuid): seq<ServiceEntry> {
    if ss == [] then []
    else if ss[0].uuid == u then WithoutServices(ss[1..], u)
    else [ss[0]] + WithoutServices(ss[1..], u)
  }

  function SwapService(ss: seq<ServiceEntry>, a: ServiceEntry, b: ServiceEntry): seq<ServiceEntry> {
    if ss == [] then []
    else if ss[0] == a then [b] + ss[1..]
    else [ss[0]] + SwapService(ss[1..], a, b)
  }

  /** An empty `id` removes the rows of the service; a known `oldId` is replaced;
      otherwise a row is added. */
  function SetService(ss: seq<ServiceEntry>, u: Uuid, oldId: string, id: string): seq<ServiceEntry> {
    if id == "" then WithoutServices(ss, u)
    else if oldId != "" && ServiceEntry(u, oldId) in ss then
      SwapService(ss, ServiceEntry(u, oldId), ServiceEntry(u, id))
    else ss + [ServiceEntry(u, id)]
  }

  // ------------------------------------------------------------------ apply

  function Apply(nas: Nas, req: Request): Applied {
    match req
    case List => Applied(nas, Entries(nas.records))
    case ListCerts => Applied(nas, Certs(nas.certificates))
    case ListAcls => Applied(nas, Acls(nas.aclProfiles))
    case Create(e) =>
      if FrontendTaken(nas.records, e.frontend) then Applied(nas, Error(ERR_EXISTS))
      else
        var stored := e.(uuid := nas.next, key := nas.next);
        Applied(nas.(records := nas.records + [stored], next := nas.next + 1), Created(nas.next))
    case Update(e) =>
      if HasUuid(nas.records, e.uuid) then Applied(nas.(records := Replace(nas.records, e)), Done)
      else Applied(nas, Error(ERR_UNKNOWN))
    case Delete(u) =>
      if nas.strict && !HasUuid(nas.records, u) then Applied(nas, Error(ERR_UNKNOWN))
      else Applied(nas.(records := Without(nas.records, u)), Done)
    case SetCert(u, _, oldId, id) =>
      Applied(nas.(services := SetService(nas.services, u, oldId, id)), Done)
  }

  // -------------------------------------------------------------- invariant

  predicate UniqueUuids(rs: seq<ProxyEntry>) {
    rs == [] || ((forall r | r in rs[1..] :: r.uuid != rs[0].uuid) && UniqueUuids(rs[1..]))
  }

  ghost predicate UniqueDescriptions(rs: seq<ProxyEntry>) {
    forall d :: |At(rs, d)| <= 1
  }

  /** UUIDs are allocated once, and no two records share a description. */
  ghost predicate Sound(nas: Nas) {
    && UniqueUuids(nas.records)
    && UniqueDescriptions(nas.records)
    && NO_UUID < nas.next
    && (forall r | r in nas.records :: NO_UUID < r.uuid < nas.next)
  }

  // ------------------------------------------------------- lists of records

  lemma {:induction false} AtDrop(rs: seq<ProxyEntry>, ds: set<string>, d: string)
    ensures At(Drop(rs, ds), d) == if d in ds then [] else At(rs, d)
  {
    if rs == [] {
    } else {
      AtDrop(rs[1..], ds, d);
      if rs[0].description !in ds {
        assert Drop(rs, ds)[1..] == Drop(rs[1..], ds);
      }
    }
  }

  lemma {:induction false} DropDrop(rs: seq<ProxyEntry>, a: set<string>, b: set<string>)
    ensures Drop(Drop(rs, a), b) == Drop(rs, a + b)
  {
    if rs == [] {
    } else {
      DropDrop(rs[1..], a, b);
      if rs[0].description !in a {
        assert Drop(rs, a)[1..] == Drop(rs[1..], a);
      }
    }
  }

  lemma {:induction false} DropNothing(rs: seq<ProxyEntry>, ds: set<string>)
    requires forall d | d in ds :: At(rs, d) == []
    ensures Drop(rs, ds) == rs
  {
    if rs == [] {
    } else {
      var d0 := rs[0].description;
      assert At(rs, d0) != [];
      forall d | d in ds ensures At(rs[1..], d) == [] {
        assert At(rs, d) == [];
        assert d != d0;
      }
      DropNothing(rs[1..], ds);
    }
  }

  /** Agreement outside `a` is agreement outside any larger set. */
  lemma DropWider(rs: seq<ProxyEntry>, rs': seq<ProxyEntry>, a: set<string>, b: set<string>)
    requires Drop(rs, a) == Drop(rs', a) && a <= b
    ensures Drop(rs, b) == Drop(rs', b)
  {
    DropDrop(rs, a, b);
    DropDrop(rs', a, b);
    assert a + b == b;
  }

  /** Agreement outside `a` leaves every description outside `a` as it was. */
  lemma AtFrame(rs: seq<ProxyEntry>, rs': seq<ProxyEntry>, a: set<string>, d: string)
    requires Drop(rs, a) == Drop(rs', a) && d !in a
    ensures At(rs, d) == At(rs', d)
  {
    AtDrop(rs, a, d);
    AtDrop(rs', a, d);
  }

  lemma {:induction false} AtMembers(rs: seq<ProxyEntry>, d: string)
    ensures forall r :: r in At(rs, d) <==> r in rs && r.description == d
  {
    if rs == [] {
    } else {
      AtMembers(rs[1..], d);
      assert rs == [rs[0]] + rs[1..];
    }
  }

  lemma {:induction false} DropMembers(rs: seq<ProxyEntry>, ds: set<string>)
    ensures forall r :: r in Drop(rs, ds) <==> r in rs && r.description !in ds
  {
    if rs == [] {
    } else {
      DropMembers(rs[1..], ds);
      assert rs == [rs[0]] + rs[1..];
    }
  }

  lemma {:induction false} AtAppend(rs: seq<ProxyEntry>, e: ProxyEntry, d: string)
    ensures At(rs + [e], d) == if e.description == d then At(rs, d) + [e] else At(rs, d)
  {
    if rs == [] {
      assert rs + [e] == [e] && [e][1..] == [];
    } else {
      AtAppend(rs[1..], e, d);
      assert (rs + [e])[1..] == rs[1..] + [e];
    }
  }

  lemma {:induction false} DropAppend(rs: seq<ProxyEntry>, e: ProxyEntry, ds: set<string>)
    ensures Drop(rs + [e], ds) == if e.description in ds then Drop(rs, ds) else Drop(rs, ds) + [e]
  {
    if rs == [] {
      assert rs + [e] == [e] && [e][1..] == [];
    } else {
      DropAppend(rs[1..], e, ds);
      assert (rs + [e])[1..] == rs[1..] + [e];
    }
  }

  lemma {:induction false} UniqueAppend(rs: seq<ProxyEntry>, e: ProxyEntry)
    requires UniqueUuids(rs) && !HasUuid(rs, e.uuid)
    ensures UniqueUuids(rs + [e])
  {
    if rs == [] {
      assert rs + [e] == [e] && [e][1..] == [];
    } else {
      UniqueAppend(rs[1..], e);
      assert (rs + [e])[1..] == rs[1..] + [e];
    }
  }

  lemma {:induction false} UniqueDrop(rs: seq<ProxyEntry>, ds: set<string>)
    requires UniqueUuids(rs)
    ensures UniqueUuids(Drop(rs, ds))
  {
    if rs == [] {
    } else {
      UniqueDrop(rs[1..], ds);
      DropMembers(rs[1..], ds);
      if rs[0].description !in ds {
        assert Drop(rs, ds)[1..] == Drop(rs[1..], ds);
      }
    }
  }

  /** Deleting by UUID removes exactly the one record with that description. */
  lemma {:induction false} WithoutIsDrop(rs: seq<ProxyEntry>, r: ProxyEntry)
    requires UniqueUuids(rs) && At(rs, r.description) == [r]
    ensures Without(rs, r.uuid) == Drop(rs, {r.description})
  {
    AtMembers(rs, r.description);
    assert r in rs by { assert r in [r]; }
    if rs[0].description == r.description {
      assert rs[0] == r && At(rs[1..], r.description) == [] by {
        assert At(rs, r.description) == [rs[0]] + At(rs[1..], r.description);
      }
      WithoutUnknown(rs[1..], r.uuid);
      DropNothing(rs[1..], {r.description});
    } else {
      assert r in rs[1..];
      WithoutIsDrop(rs[1..], r);
    }
  }

  lemma {:induction false} WithoutUnknown(rs: seq<ProxyEntry>, u: Uuid)
    requires !HasUuid(rs, u)
    ensures Without(rs, u) == rs
  {
    if rs == [] {
    } else {
      WithoutUnknown(rs[1..], u);
    }
  }

  lemma {:induction false} ReplaceUnknown(rs: seq<ProxyEntry>, e: ProxyEntry)
    requires !HasUuid(rs, e.uuid)
    ensures Replace(rs, e) == rs
  {
    if rs == [] {
    } else {
      ReplaceUnknown(rs[1..], e);
    }
  }

  /** Updating by UUID rewrites exactly the one record with that description. */
  lemma {:induction false} ReplaceOne(rs: seq<ProxyEntry>, r: ProxyEntry, e: ProxyEntry)
    requires UniqueUuids(rs) && At(rs, r.description) == [r]
    requires e.uuid == r.uuid && e.description == r.description
    ensures At(Replace(rs, e), e.description) == [e]
    ensures Drop(Replace(rs, e), {e.description}) == Drop(rs, {e.description})
  {
    AtMembers(rs, r.description);
    assert r in rs by { assert r in [r]; }
    assert Replace(rs, e)[1..] == Replace(rs[1..], e);
    if rs[0].description == r.description {
      assert rs[0] == r && At(rs[1..], r.description) == [] by {
        assert At(rs, r.description) == [rs[0]] + At(rs[1..], r.description);
      }
      ReplaceUnknown(rs[1..], e);
    } else {
      assert r in rs[1..];
      ReplaceOne(rs[1..], r, e);
    }
  }

  lemma {:induction false} ReplaceUuids(rs: seq<ProxyEntry>, e: ProxyEntry)
    ensures |Replace(rs, e)| == |rs|
    ensures forall i | 0 <= i < |rs| :: Replace(rs, e)[i].uuid == rs[i].uuid
    ensures UniqueUuids(rs) ==> UniqueUuids(Replace(rs, e))
  {
    if rs == [] {
    } else {
      ReplaceUuids(rs[1..], e);
      var tail := Replace(rs[1..], e);
      assert Replace(rs, e)[1..] == tail;
      forall r | r in tail && UniqueUuids(rs) ensures r.uuid != rs[0].uuid {
        var i :| 0 <= i < |tail| && tail[i] == r;
        assert rs[1..][i] in rs[1..];
      }
    }
  }

  // ------------------------------------------------------- applying a request

  lemma {:induction false} ReplaceTwice(rs: seq<ProxyEntry>, e: ProxyEntry)
    ensures Replace(Replace(rs, e), e) == Replace(rs, e)
  {
    if rs == [] {
    } else {
      ReplaceTwice(rs[1..], e);
      assert Replace(rs, e)[1..] == Replace(rs[1..], e);
    }
  }

  lemma {:induction false} WithoutTwice(rs: seq<ProxyEntry>, u: Uuid)
    ensures Without(Without(rs, u), u) == Without(rs, u)
  {
    if rs == [] {
    } else {
      WithoutTwice(rs[1..], u);
      if rs[0].uuid != u {
        assert Without(rs, u)[1..] == Without(rs[1..], u);
      }
    }
  }

  /** A request that may arrive more than once: anything but putting one certificate in
      the place of another. */
  predicate Repeatable(req: Request) {
    req.SetCert? ==> req.id == "" || req.oldId == req.id
  }

  lemma {:induction false} WithoutServicesTwice(ss: seq<ServiceEntry>, u: Uuid)
    ensures WithoutServices(WithoutServices(ss, u), u) == WithoutServices(ss, u)
  {
    if ss != [] {
      WithoutServicesTwice(ss[1..], u);
      if ss[0].uuid != u {
        assert WithoutServices(ss, u)[1..] == WithoutServices(ss[1..], u);
      }
    }
  }

  lemma {:induction false} SwapSame(ss: seq<ServiceEntry>, a: ServiceEntry)
    ensures SwapService(ss, a, a) == ss
  {
    if ss != [] {
      SwapSame(ss[1..], a);
    }
  }

  lemma {:induction false} SwapChanges(ss: seq<ServiceEntry>, a: ServiceEntry, b: ServiceEntry)
    requires a in ss && a != b
    ensures SwapService(ss, a, b) != ss && |SwapService(ss, a, b)| == |ss|
  {
    if ss[0] != a {
      SwapChanges(ss[1..], a, b);
      assert SwapService(ss, a, b)[1..] == SwapService(ss[1..], a, b);
    }
  }

  lemma SetServiceTwice(ss: seq<ServiceEntry>, u: Uuid, oldId: string, id: string)
    ensures SetService(SetService(ss, u, oldId, id), u, oldId, id) == SetService(ss, u, oldId, id)
       <==> id == "" || oldId == id
  {
    var once := SetService(ss, u, oldId, id);
    var a, b := ServiceEntry(u, oldId), ServiceEntry(u, id);
    if id == "" {
      WithoutServicesTwice(ss, u);
    } else if oldId == id {
      SwapSame(ss, b);
      SwapSame(once, b);
    } else if oldId != "" && a in once {
      SwapChanges(once, a, b);
    }
  }

  /** Repeating a request changes nothing more exactly when it is repeatable: this is what
      makes a lost acknowledgement harmless for the record list. */
  lemma ApplyTwice(nas: Nas, req: Request)
    ensures Apply(Apply(nas, req).nas, req).nas == Apply(nas, req).nas <==> Repeatable(req)
  {
    match req
    case Create(e) =>
      if !FrontendTaken(nas.records, e.frontend) {
        var rs := Apply(nas, req).nas.records;
        assert SameFrontend(rs[|rs| - 1].frontend, e.frontend);
      }
    case Update(e) => ReplaceTwice(nas.records, e);
    case Delete(u) => WithoutTwice(nas.records, u);
    case SetCert(u, _, oldId, id) => SetServiceTwice(nas.services, u, oldId, id);
    case List =>
    case ListCerts =>
    case ListAcls =>
  }

  // -------------------------------------------- requests keep the invariant

  /** A sound record list that agrees with another outside `d` and holds at most
      one record for `d` has unique descriptions. */
  lemma UniqueByFrame(rs: seq<ProxyEntry>, rs': seq<ProxyEntry>, d: string)
    requires UniqueDescriptions(rs) && Drop(rs, {d}) == Drop(rs', {d}) && |At(rs', d)| <= 1
    ensures UniqueDescriptions(rs')
  {
    forall x ensures |At(rs', x)| <= 1 {
      if x != d { AtFrame(rs, rs', {d}, x); }
    }
  }

  lemma CreateKeepsSound(nas: Nas, e: ProxyEntry)
    requires Sound(nas) && At(nas.records, e.description) == []
    requires !FrontendTaken(nas.records, e.frontend)
    ensures
      var nas' := Apply(nas, Create(e)).nas;
      && Sound(nas')
      && At(nas'.records, e.description) == [e.(uuid := nas.next, key := nas.next)]
      && Drop(nas'.records, {e.description}) == Drop(nas.records, {e.description})
  {
    var stored := e.(uuid := nas.next, key := nas.next);
    var rs' := nas.records + [stored];
    AtAppend(nas.records, stored, e.description);
    DropAppend(nas.records, stored, {e.description});
    UniqueAppend(nas.records, stored);
    UniqueByFrame(nas.records, rs', e.description);
  }

  lemma ReplaceInRange(rs: seq<ProxyEntry>, e: ProxyEntry, next: Uuid)
    requires forall r | r in rs :: NO_UUID < r.uuid < next
    ensures forall r | r in Replace(rs, e) :: NO_UUID < r.uuid < next
  {
    ReplaceUuids(rs, e);
    forall r | r in Replace(rs, e) ensures NO_UUID < r.uuid < next {
      var i :| 0 <= i < |Replace(rs, e)| && Replace(rs, e)[i] == r;
      assert rs[i] in rs;
    }
  }

  lemma UpdateKeepsSound(nas: Nas, r: ProxyEntry, e: ProxyEntry)
    requires Sound(nas) && At(nas.records, r.description) == [r]
    requires e.uuid == r.uuid && e.description == r.description
    ensures
      var nas' := Apply(nas, Update(e)).nas;
      && Sound(nas')
      && At(nas'.records, e.description) == [e]
      && Drop(nas'.records, {e.description}) == Drop(nas.records, {e.description})
      && nas' == nas.(records := Replace(nas.records, e))
      && Apply(nas, Update(e)).answer == Done
  {
    var rs' := Replace(nas.records, e);
    assert HasUuid(nas.records, e.uuid) by {
      AtMembers(nas.records, r.description);
      assert r in [r];
    }
    ReplaceOne(nas.records, r, e);
    ReplaceUuids(nas.records, e);
    ReplaceInRange(nas.records, e, nas.next);
    UniqueByFrame(nas.records, rs', e.description);
  }

  lemma DropKeepsSound(nas: Nas, ds: set<string>)
    requires Sound(nas)
    ensures Sound(nas.(records := Drop(nas.records, ds)))
  {
    UniqueDrop(nas.records, ds);
    DropMembers(nas.records, ds);
    forall d ensures |At(Drop(nas.records, ds), d)| <= 1 {
      AtDrop(nas.records, ds, d);
    }
  }

  lemma DeleteKeepsSound(nas: Nas, r: ProxyEntry)
    requires Sound(nas) && At(nas.records, r.description) == [r]
    ensures
      var out := Apply(nas, Delete(r.uuid));
      && out.answer == Done
      && out.nas == nas.(records := Drop(nas.records, {r.description}))
      && Sound(out.nas)
  {
    AtMembers(nas.records, r.description);
    assert r in nas.records by { assert r in [r]; }
    WithoutIsDrop(nas.records, r);
    DropKeepsSound(nas, {r.description});
  }

  lemma UuidInRange(nas: Nas, d: string)
    requires Sound(nas) && At(nas.records, d) != []
    ensures NO_UUID < At(nas.records, d)[0].uuid < nas.next
  {
    AtMembers(nas.records, d);
    assert At(nas.records, d)[0] in At(nas.records, d);
  }
}
