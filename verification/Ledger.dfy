/** Certificate rows: on healthy passes every tracked record has exactly the row its
    status names, across updates, re-creations and dropped hosts. */
module Ledger {
  import opened Util
  import opened Dsm
  import opened Client
  import opened Proxy
  import opened CertificateChoice
  import opened CertificateService
  import opened Rules
  import opened Sync
  import opened Convergence
  import opened Silence

  /** The rows a status entry stands for. */
  function RowsFor(certID: string): seq<string> {
    if certID == "" then [] else [certID]
  }

  // ------------------------------------------------------------------ rows

  lemma {:induction false} RowsWithout(ss: seq<ServiceEntry>, u: Uuid, v: Uuid)
    ensures CertsOf(WithoutServices(ss, u), v) == if v == u then [] else CertsOf(ss, v)
  {
    if ss != [] {
      RowsWithout(ss[1..], u, v);
      if ss[0].uuid != u {
        assert WithoutServices(ss, u)[1..] == WithoutServices(ss[1..], u);
      }
    }
  }

  lemma {:induction false} RowsAppend(ss: seq<ServiceEntry>, s: ServiceEntry, v: Uuid)
    ensures CertsOf(ss + [s], v) == CertsOf(ss, v) + if s.uuid == v then [s.cert] else []
  {
    if ss == [] {
      assert ss + [s] == [s] && [s][1..] == [];
    } else {
      RowsAppend(ss[1..], s, v);
      assert (ss + [s])[1..] == ss[1..] + [s];
    }
  }

  lemma {:induction false} RowsMember(ss: seq<ServiceEntry>, u: Uuid, cert: string)
    ensures cert in CertsOf(ss, u) <==> ServiceEntry(u, cert) in ss
  {
    if ss != [] {
      RowsMember(ss[1..], u, cert);
    }
  }

  lemma {:induction false} RowsSwap(ss: seq<ServiceEntry>, u: Uuid, a: string, b: string, v: Uuid)
    ensures v != u ==> CertsOf(SwapService(ss, ServiceEntry(u, a), ServiceEntry(u, b)), v) == CertsOf(ss, v)
    ensures CertsOf(ss, u) == [a] ==> CertsOf(SwapService(ss, ServiceEntry(u, a), ServiceEntry(u, b)), u) == [b]
  {
    if ss != [] {
      var x, y := ServiceEntry(u, a), ServiceEntry(u, b);
      RowsSwap(ss[1..], u, a, b, v);
      if ss[0] == x {
        assert SwapService(ss, x, y)[1..] == ss[1..];
      } else {
        assert ss[0].uuid == u ==> CertsOf(ss, u)[0] == ss[0].cert;
        assert SwapService(ss, x, y)[1..] == SwapService(ss[1..], x, y);
      }
    }
  }

  /** Passing the certificate in place as `old_id` replaces it; otherwise one is added. */
  lemma RowsSet(ss: seq<ServiceEntry>, u: Uuid, oldId: string, id: string, v: Uuid)
    requires id != "" && CertsOf(ss, u) == RowsFor(oldId)
    ensures CertsOf(SetService(ss, u, oldId, id), v) == if v == u then [id] else CertsOf(ss, v)
  {
    RowsMember(ss, u, oldId);
    if oldId == "" {
      RowsAppend(ss, ServiceEntry(u, id), v);
    } else {
      assert oldId in [oldId];
      RowsSwap(ss, u, oldId, id, v);
    }
  }

  // -------------------------------------------------------------- one host

  /** The two UUIDs a host's certificate handling may touch. */
  predicate TouchesRows(prev: Option<ManagedRecord>, uuid: Uuid, v: Uuid) {
    v == uuid || (prev.Some? && prev.value.uuid != NO_UUID && v == prev.value.uuid)
  }

  /** A record back under a new UUID while certificates are not assigned: its status
      keeps a certificate that the new record does not have. */
  predicate Misstated(plan: Plan, prev: Option<ManagedRecord>, uuid: Uuid) {
    !plan.assignCert && prev.Some? && prev.value.uuid != NO_UUID && prev.value.uuid != uuid && prev.value.certID != ""
  }

  /** After one host's certificate handling its row is the one its status names,
      exactly when the host is not misstated. */
  lemma CertifyRows(w: World, plan: Plan, h: HostEntry, prev: Option<ManagedRecord>, up: Upserted)
    requires w.script == [] && up.uuid != NO_UUID
    requires BestCert(w.nas.certificates, h.host).0 != ""
    requires prev.Some? ==>
      prev.value.uuid != NO_UUID && CertsOf(w.nas.services, prev.value.uuid) == RowsFor(prev.value.certID)
    requires prev.None? || prev.value.uuid != up.uuid ==> CertsOf(w.nas.services, up.uuid) == []
    requires prev.Some? && prev.value.uuid != up.uuid ==> up.written
    ensures
      var c := Certify(w, plan, h, prev, up);
      && c.w.script == [] && c.res.Ok?
      && c.w.nas == w.nas.(services := c.w.nas.services)
      && c.res.value.uuid == up.uuid && c.res.value.description == h.desc
      && (forall v | !TouchesRows(prev, up.uuid, v) :: CertsOf(c.w.nas.services, v) == CertsOf(w.nas.services, v))
      && (CertsOf(c.w.nas.services, up.uuid) == RowsFor(c.res.value.certID) <==> !Misstated(plan, prev, up.uuid))
  {
    var kept := Retire(w, prev, up.uuid, h.host);
    if prev.Some? && prev.value.uuid != up.uuid {
      UnassignHealthy(w, prev.value.uuid, h.host);
      forall v
        ensures CertsOf(kept.w.nas.services, v) == if v == prev.value.uuid then [] else CertsOf(w.nas.services, v)
      {
        RowsWithout(w.nas.services, prev.value.uuid, v);
      }
    }
    assert kept.res.Ok? && CertsOf(kept.w.nas.services, up.uuid) == RowsFor(kept.res.value);
    if plan.assignCert && up.written {
      AssignHealthy(kept.w, up.uuid, h.host, kept.res.value);
      var best := BestCert(w.nas.certificates, h.host).0;
      var a := AssignCertificate(kept.w, up.uuid, h.host, kept.res.value);
      forall v
        ensures CertsOf(a.w.nas.services, v) == if v == up.uuid then [best] else CertsOf(kept.w.nas.services, v)
      {
        RowsSet(kept.w.nas.services, up.uuid, kept.res.value, best, v);
      }
    }
  }

  // -------------------------------------------------------------- all hosts

  /** The status and the rows agree, and identifiers have not been reused. */
  ghost predicate Booked(nas: Nas, managed: seq<ManagedRecord>) {
    && (forall m | m in managed ::
          NO_UUID < m.uuid < nas.next && CertsOf(nas.services, m.uuid) == RowsFor(m.certID))
    && (forall i, j | 0 <= i < j < |managed| ::
          managed[i].description != managed[j].description && managed[i].uuid != managed[j].uuid)
    && (forall m, r | m in managed && r in nas.records :: r.description == m.description <==> r.uuid == m.uuid)
    && (forall u: Uuid | nas.next <= u :: CertsOf(nas.services, u) == [])
  }

  /** A record of the rule that is not tracked has no certificate row. */
  ghost predicate NoStrayRows(nas: Nas, managed: seq<ManagedRecord>, mine: set<string>) {
    forall r | r in nas.records && r.description in mine && PrevOf(managed, r.description).None? ::
      CertsOf(nas.services, r.uuid) == []
  }

  /** Some certificate qualifies for every host. */
  ghost predicate CertsForAll(nas: Nas, plan: Plan) {
    forall i | 0 <= i < |plan.hosts| :: BestCert(nas.certificates, plan.hosts[i].host).0 != ""
  }

  /** Host `i` will be re-created without a certificate the status still names. */
  predicate MisstatedAt(rs: seq<ProxyEntry>, managed: seq<ManagedRecord>, plan: Plan, i: nat)
    requires i < |plan.hosts|
  {
    var prev := PrevOf(managed, plan.hosts[i].desc);
    !plan.assignCert && At(rs, plan.hosts[i].desc) == [] && prev.Some? && prev.value.certID != ""
  }

  /** Certificates are assigned, or no tracked record with one is missing from DSM. */
  predicate WellStated(rs: seq<ProxyEntry>, managed: seq<ManagedRecord>, plan: Plan) {
    forall i | 0 <= i < |plan.hosts| :: !MisstatedAt(rs, managed, plan, i)
  }

  /** The UUID of a host's record: the one it had, or fresh since `first`. */
  predicate Placed(rs: seq<ProxyEntry>, first: Uuid, d: string, u: Uuid) {
    if At(rs, d) == [] then first <= u else u == At(rs, d)[0].uuid
  }

  /** The record has the row its status entry names. */
  predicate RowRight(nas: Nas, m: ManagedRecord) {
    CertsOf(nas.services, m.uuid) == RowsFor(m.certID)
  }

  /** The records described outside `ds` have the rows they had. */
  ghost predicate SameRows(nas0: Nas, nas: Nas, ds: set<string>) {
    forall r | r in nas0.records && r.description !in ds ::
      CertsOf(nas.services, r.uuid) == CertsOf(nas0.services, r.uuid)
  }

  /** So have the tracked ones, whether in DSM or not. */
  ghost predicate SameTrackedRows(nas0: Nas, nas: Nas, managed: seq<ManagedRecord>, ds: set<string>) {
    forall m | m in managed && m.description !in ds :: CertsOf(nas.services, m.uuid) == CertsOf(nas0.services, m.uuid)
  }

  /** The hosts done: each row is the one its new status entry names, unless misstated. */
  ghost predicate RowsBehind(nas0: Nas, nas: Nas, plan: Plan,
      managed: seq<ManagedRecord>, records: seq<ManagedRecord>, k: nat)
    requires k <= |plan.hosts| && k <= |records|
  {
    forall i | 0 <= i < k ::
      && RowRight(nas, records[i]) == !MisstatedAt(nas0.records, managed, plan, i)
      && NO_UUID < records[i].uuid < nas.next
      && Placed(nas0.records, nas0.next, plan.hosts[i].desc, records[i].uuid)
  }

  /** The hosts to come: each row is the one its old status entry names. */
  ghost predicate RowsAhead(nas0: Nas, nas: Nas, plan: Plan, managed: seq<ManagedRecord>, k: nat)
    requires k <= |plan.hosts|
  {
    forall i | k <= i < |plan.hosts| ::
      var prev := PrevOf(managed, plan.hosts[i].desc);
      && (prev.Some? ==> CertsOf(nas.services, prev.value.uuid) == RowsFor(prev.value.certID))
      && forall r | r in nas0.records && r.description == plan.hosts[i].desc ::
           CertsOf(nas.services, r.uuid) == if prev.Some? then RowsFor(prev.value.certID) else []
  }

  /** Where the rows stand after `k` hosts. */
  ghost predicate BookedBy(nas0: Nas, nas: Nas, plan: Plan, managed: seq<ManagedRecord>, records: seq<ManagedRecord>,
      k: nat)
    requires k <= |plan.hosts|
  {
    && nas0.next <= nas.next
    && Tracks(nas, plan, records, k)
    && Drop(nas.records, DescsUpTo(plan, k)) == Drop(nas0.records, DescsUpTo(plan, k))
    && (forall u: Uuid | nas.next <= u :: CertsOf(nas.services, u) == [])
    && SameRows(nas0, nas, Descs(plan)) && SameTrackedRows(nas0, nas, managed, Descs(plan))
    && RowsBehind(nas0, nas, plan, managed, records, k)
    && RowsAhead(nas0, nas, plan, managed, k)
  }

  /** The UUIDs touched for host `k` belong to no other host. */
  lemma TouchesOwn(nas0: Nas, managed: seq<ManagedRecord>, plan: Plan, k: nat, uuid: Uuid, d: string, v: Uuid)
    requires Sound(nas0) && Booked(nas0, managed) && k < |plan.hosts| && d != plan.hosts[k].desc
    requires Placed(nas0.records, nas0.next, plan.hosts[k].desc, uuid)
    requires
      || (exists r | r in nas0.records :: r.description == d && r.uuid == v)
      || (PrevOf(managed, d).Some? && v == PrevOf(managed, d).value.uuid)
    ensures !TouchesRows(PrevOf(managed, plan.hosts[k].desc), uuid, v)
  {
    PrevOfMember(managed, d);
    PrevOfMember(managed, plan.hosts[k].desc);
    var rs, at := nas0.records, At(nas0.records, plan.hosts[k].desc);
    AtMembers(rs, plan.hosts[k].desc);
    assert at != [] ==> at[0] in at;
    if r :| r in rs && r.description == d && r.uuid == v && at != [] {
      UuidsDiffer(rs, r, at[0]);
    }
  }

  lemma {:induction false} UuidsDiffer(rs: seq<ProxyEntry>, a: ProxyEntry, b: ProxyEntry)
    requires UniqueUuids(rs) && a in rs && b in rs && a != b
    ensures a.uuid != b.uuid
  {
    if a != rs[0] && b != rs[0] {
      UuidsDiffer(rs[1..], a, b);
    }
  }

  /** What healthy host handling gives the bookkeeping to go on. */
  ghost predicate HostBooked(nas0: Nas, nas: Nas, nas': Nas, plan: Plan,
      managed: seq<ManagedRecord>, m: ManagedRecord, k: nat)
    requires k < |plan.hosts|
  {
    var d := plan.hosts[k].desc;
    && Sound(nas') && nas.next <= nas'.next
    && NO_UUID < m.uuid < nas'.next
    && Placed(nas0.records, nas0.next, d, m.uuid)
    && RowRight(nas', m) == !MisstatedAt(nas0.records, managed, plan, k)
    && (forall v | !TouchesRows(PrevOf(managed, d), m.uuid, v) :: CertsOf(nas'.services, v) == CertsOf(nas.services, v))
  }

  /** How the upsert of host `k` leaves things for its certificate. */
  ghost predicate HostUpserted(nas0: Nas, nas: Nas, nas': Nas, plan: Plan,
      managed: seq<ManagedRecord>, up: Upserted, k: nat)
    requires k < |plan.hosts|
  {
    var d := plan.hosts[k].desc;
    var prev := PrevOf(managed, d);
    && Sound(nas') && nas.next <= nas'.next
    && nas'.services == nas.services && nas'.certificates == nas.certificates
    && NO_UUID < up.uuid < nas'.next && Placed(nas0.records, nas0.next, d, up.uuid)
    && (prev.Some? ==> prev.value.uuid != NO_UUID && CertsOf(nas.services,
         prev.value.uuid) == RowsFor(prev.value.certID))
    && (prev.None? || prev.value.uuid != up.uuid ==> CertsOf(nas.services, up.uuid) == [])
    && (prev.Some? && prev.value.uuid != up.uuid ==> up.written)
    && MisstatedAt(nas0.records, managed, plan, k) == Misstated(plan, prev, up.uuid)
  }

  lemma HostIsUpserted(nas0: Nas, w: World, plan: Plan, managed: seq<ManagedRecord>, records: seq<ManagedRecord>,
      k: nat)
    requires k < |plan.hosts| && Distinct(plan) && w.script == [] && Sound(w.nas) && Sound(nas0)
    requires Booked(nas0, managed) && BookedBy(nas0, w.nas, plan, managed, records, k)
    requires Upsert(w, RuleAt(plan, k)).res.Ok?
    ensures
      var u := Upsert(w, RuleAt(plan, k));
      HostUpserted(nas0, w.nas, u.w.nas, plan, managed, u.res.value, k)
  {
    var d := plan.hosts[k].desc;
    AtFrame(w.nas.records, nas0.records, DescsUpTo(plan, k), d);
    AtMembers(nas0.records, d);
    PrevOfMember(managed, d);
    UpsertEffect(w, RuleAt(plan, k));
    UpsertHealthy(w, RuleAt(plan, k));
    UuidInRange(Upsert(w, RuleAt(plan, k)).w.nas, d);
    var at := At(w.nas.records, d);
    if at != [] {
      assert at[0] in at && at[0] in nas0.records;
    }
  }

  lemma HostIsBooked(nas0: Nas, w: World, plan: Plan, managed: seq<ManagedRecord>, records: seq<ManagedRecord>, k: nat)
    requires k < |plan.hosts| && Distinct(plan) && w.script == [] && Sound(w.nas) && Sound(nas0)
    requires Booked(nas0, managed) && CertsForAll(w.nas, plan)
    requires BookedBy(nas0, w.nas, plan, managed, records, k)
    requires SyncHost(w, plan, k, managed).res.Ok?
    ensures
      var h := SyncHost(w, plan, k, managed);
      HostBooked(nas0, w.nas, h.w.nas, plan, managed, h.res.value, k)
  {
    var u := Upsert(w, RuleAt(plan, k));
    UpsertHealthy(w, RuleAt(plan, k));
    HostIsUpserted(nas0, w, plan, managed, records, k);
    CertifyRows(u.w, plan, plan.hosts[k], PrevOf(managed, plan.hosts[k].desc), u.res.value);
  }

  /** The rows of the hosts before `k` are not touched by host `k`. */
  lemma BehindKeeps(nas0: Nas, nas: Nas, nas': Nas, plan: Plan,
      managed: seq<ManagedRecord>, records: seq<ManagedRecord>, m: ManagedRecord, k: nat)
    requires k < |plan.hosts| && |records| == k && Distinct(plan) && Sound(nas0) && Booked(nas0, managed)
    requires RowsBehind(nas0, nas, plan, managed, records, k)
    requires HostBooked(nas0, nas, nas', plan, managed, m, k)
    requires Tracks(nas', plan, records + [m], k + 1)
    ensures RowsBehind(nas0, nas', plan, managed, records + [m], k + 1)
  {
    var prev := PrevOf(managed, plan.hosts[k].desc);
    PrevOfMember(managed, plan.hosts[k].desc);
    forall i | 0 <= i < k ensures !TouchesRows(prev, m.uuid, records[i].uuid) {
      var d := plan.hosts[i].desc;
      assert d != plan.hosts[k].desc;
      AtMembers(nas0.records, d);
      assert At(nas0.records, d) != [] ==> At(nas0.records, d)[0] in At(nas0.records, d);
      var a, b := At(nas'.records, d), At(nas'.records, plan.hosts[k].desc);
      AtMembers(nas'.records, d);
      AtMembers(nas'.records, plan.hosts[k].desc);
      assert (records + [m])[i] == records[i] && (records + [m])[k] == m;
      assert a[0] in a && b[0] in b;
      UuidsDiffer(nas'.records, a[0], b[0]);
    }
  }

  /** Nor are those of the hosts after it. */
  lemma AheadKeeps(nas0: Nas, nas: Nas, nas': Nas, plan: Plan, managed: seq<ManagedRecord>, m: ManagedRecord, k: nat)
    requires k < |plan.hosts| && Distinct(plan) && Sound(nas0) && Booked(nas0, managed)
    requires RowsAhead(nas0, nas, plan, managed, k)
    requires HostBooked(nas0, nas, nas', plan, managed, m, k)
    ensures RowsAhead(nas0, nas', plan, managed, k + 1)
  {
    forall i | k + 1 <= i < |plan.hosts|
      ensures
        var prev := PrevOf(managed, plan.hosts[i].desc);
        && (prev.Some? ==> CertsOf(nas'.services, prev.value.uuid) == CertsOf(nas.services, prev.value.uuid))
        && forall r | r in nas0.records && r.description == plan.hosts[i].desc ::
             CertsOf(nas'.services, r.uuid) == CertsOf(nas.services, r.uuid)
    {
      var d := plan.hosts[i].desc;
      var prev := PrevOf(managed, d);
      if prev.Some? {
        TouchesOwn(nas0, managed, plan, k, m.uuid, d, prev.value.uuid);
      }
      forall r | r in nas0.records && r.description == d
        ensures CertsOf(nas'.services, r.uuid) == CertsOf(nas.services, r.uuid)
      {
        TouchesOwn(nas0, managed, plan, k, m.uuid, d, r.uuid);
      }
    }
  }

  /** Nor those of other records. */
  lemma StrangersKeep(nas0: Nas, nas: Nas, nas': Nas, plan: Plan, managed: seq<ManagedRecord>, m: ManagedRecord, k: nat)
    requires k < |plan.hosts| && Distinct(plan) && Sound(nas0) && Booked(nas0, managed)
    requires HostBooked(nas0, nas, nas', plan, managed, m, k)
    requires SameRows(nas0, nas, Descs(plan)) && SameTrackedRows(nas0, nas, managed, Descs(plan))
    ensures SameRows(nas0, nas', Descs(plan)) && SameTrackedRows(nas0, nas', managed, Descs(plan))
  {
    forall r | r in nas0.records && r.description !in Descs(plan)
      ensures CertsOf(nas'.services, r.uuid) == CertsOf(nas0.services, r.uuid)
    {
      TouchesOwn(nas0, managed, plan, k, m.uuid, r.description, r.uuid);
    }
    forall t | t in managed && t.description !in Descs(plan)
      ensures CertsOf(nas'.services, t.uuid) == CertsOf(nas0.services, t.uuid)
    {
      PrevOfTracked(nas0, managed, t);
      TouchesOwn(nas0, managed, plan, k, m.uuid, t.description, t.uuid);
    }
  }

  lemma PrevOfTracked(nas: Nas, managed: seq<ManagedRecord>, m: ManagedRecord)
    requires Booked(nas, managed) && m in managed
    ensures PrevOf(managed, m.description) == Some(m)
  {
    PrevOfMember(managed, m.description);
    var p := PrevOf(managed, m.description).value;
    var i :| 0 <= i < |managed| && managed[i] == m;
    var j :| 0 <= j < |managed| && managed[j] == p;
  }

  lemma BookedStep(nas0: Nas, nas: Nas, nas': Nas, plan: Plan,
      managed: seq<ManagedRecord>, records: seq<ManagedRecord>, m: ManagedRecord, k: nat)
    requires k < |plan.hosts| && Distinct(plan) && Sound(nas0) && Booked(nas0, managed)
    requires BookedBy(nas0, nas, plan, managed, records, k)
    requires HostBooked(nas0, nas, nas', plan, managed, m, k)
    requires Tracks(nas', plan, records + [m], k + 1)
    requires Drop(nas'.records, DescsUpTo(plan, k + 1)) == Drop(nas0.records, DescsUpTo(plan, k + 1))
    ensures BookedBy(nas0, nas', plan, managed, records + [m], k + 1)
  {
    BehindKeeps(nas0, nas, nas', plan, managed, records, m, k);
    AheadKeeps(nas0, nas, nas', plan, managed, m, k);
    StrangersKeep(nas0, nas, nas', plan, managed, m, k);
    var prev := PrevOf(managed, plan.hosts[k].desc);
    PrevOfMember(managed, plan.hosts[k].desc);
    forall u: Uuid | nas'.next <= u ensures CertsOf(nas'.services, u) == [] {
      assert !TouchesRows(prev, m.uuid, u);
    }
  }

  ghost predicate LedgerReady(w: World, plan: Plan, managed: seq<ManagedRecord>) {
    && Distinct(plan) && w.script == [] && Sound(w.nas)
    && Booked(w.nas, managed) && NoStrayRows(w.nas, managed, Descs(plan)) && CertsForAll(w.nas, plan)
  }

  /** Where the rows of a healthy pass stand after `k` hosts. */
  ghost predicate LedgerBy(w: World, plan: Plan, managed: seq<ManagedRecord>, s: Synced, k: nat)
    requires k <= |plan.hosts|
  {
    s.halt == Running ==> BookedBy(w.nas, s.w.nas, plan, managed, s.records, k)
  }

  /** One more host of a healthy pass, as it stands before and after. */
  ghost predicate StandingStep(w: World, plan: Plan, managed: seq<ManagedRecord>, s: Synced, t: Synced, k: nat)
    requires 0 < k <= |plan.hosts|
  {
    && t == (if s.halt != Running then s else Advance(s.records, SyncHost(s.w, plan, k - 1, managed)))
    && OnTrack(w, plan, s, k - 1) && OnTrack(w, plan, t, k)
  }

  lemma HostsStand(w: World, plan: Plan, managed: seq<ManagedRecord>, k: nat)
    requires 0 < k <= |plan.hosts| && Distinct(plan) && w.script == [] && Sound(w.nas)
    ensures StandingStep(w, plan, managed, SyncHosts(w, plan, managed, k - 1), SyncHosts(w, plan, managed, k), k)
  {
    DistinctIsWellNamed(plan);
    HostsOnTrack(w, plan, managed, k - 1);
    HostsOnTrack(w, plan, managed, k);
  }

  lemma NextHostBooked(w: World, plan: Plan, managed: seq<ManagedRecord>, s: Synced, t: Synced, k: nat)
    requires 0 < k <= |plan.hosts| && LedgerReady(w, plan, managed)
    requires StandingStep(w, plan, managed, s, t, k) && LedgerBy(w, plan, managed, s, k - 1)
    ensures LedgerBy(w, plan, managed, t, k)
  {
    if s.halt == Running {
      BookedHostStep(w, plan, managed, s, k);
    }
  }

  lemma BookedNext(w: World, plan: Plan, managed: seq<ManagedRecord>, k: nat)
    requires 0 < k <= |plan.hosts| && LedgerReady(w, plan, managed)
    requires LedgerBy(w, plan, managed, SyncHosts(w, plan, managed, k - 1), k - 1)
    ensures LedgerBy(w, plan, managed, SyncHosts(w, plan, managed, k), k)
  {
    HostsStand(w, plan, managed, k);
    NextHostBooked(w, plan, managed, SyncHosts(w, plan, managed, k - 1), SyncHosts(w, plan, managed, k), k);
  }

  lemma {:induction false} BookedHosts(w: World, plan: Plan, managed: seq<ManagedRecord>, k: nat)
    requires k <= |plan.hosts| && LedgerReady(w, plan, managed)
    ensures LedgerBy(w, plan, managed, SyncHosts(w, plan, managed, k), k)
    decreases k
  {
    if k == 0 {
      BookedStart(w.nas, plan, managed);
    } else {
      BookedHosts(w, plan, managed, k - 1);
      BookedNext(w, plan, managed, k);
    }
  }

  lemma BookedStart(nas: Nas, plan: Plan, managed: seq<ManagedRecord>)
    requires Booked(nas, managed) && NoStrayRows(nas, managed, Descs(plan))
    ensures BookedBy(nas, nas, plan, managed, [], 0)
  {
    forall i | 0 <= i < |plan.hosts|
      ensures
        var prev := PrevOf(managed, plan.hosts[i].desc);
        && (prev.Some? ==> CertsOf(nas.services, prev.value.uuid) == RowsFor(prev.value.certID))
        && forall r | r in nas.records && r.description == plan.hosts[i].desc ::
             CertsOf(nas.services, r.uuid) == if prev.Some? then RowsFor(prev.value.certID) else []
    {
      PrevOfMember(managed, plan.hosts[i].desc);
    }
  }

  lemma BookedHostStep(w: World, plan: Plan, managed: seq<ManagedRecord>, s: Synced, k: nat)
    requires 0 < k <= |plan.hosts| && LedgerReady(w, plan, managed)
    requires s.halt == Running && OnTrack(w, plan, s, k - 1)
    requires LedgerBy(w, plan, managed, s, k - 1)
    requires OnTrack(w, plan, Advance(s.records, SyncHost(s.w, plan, k - 1, managed)), k)
    ensures LedgerBy(w, plan, managed, Advance(s.records, SyncHost(s.w, plan, k - 1, managed)), k)
  {
    var h := SyncHost(s.w, plan, k - 1, managed);
    if h.res.Ok? {
      HostIsBooked(w.nas, s.w, plan, managed, s.records, k - 1);
      BookedStep(w.nas, s.w.nas, h.w.nas, plan, managed, s.records, h.res.value, k - 1);
    }
  }

  /** Tracked hosts in place and rows right make a status that is booked. */
  lemma TracksAreBooked(nas: Nas, plan: Plan, records: seq<ManagedRecord>)
    requires Sound(nas) && Distinct(plan) && Tracks(nas, plan, records, |plan.hosts|)
    requires forall i | 0 <= i < |plan.hosts| :: NO_UUID < records[i].uuid < nas.next
    requires forall u: Uuid | nas.next <= u :: CertsOf(nas.services, u) == []
    ensures Booked(nas, records) <==> forall i | 0 <= i < |plan.hosts| :: RowRight(nas, records[i])
  {
    forall i, r | 0 <= i < |plan.hosts| && r in nas.records
      ensures r.description == records[i].description <==> r.uuid == records[i].uuid
    {
      var at := At(nas.records, plan.hosts[i].desc);
      AtMembers(nas.records, plan.hosts[i].desc);
      assert at == [at[0]] && at[0] in at;
      if r != at[0] {
        UuidsDiffer(nas.records, r, at[0]);
        assert r !in at;
      }
    }
    forall i, j | 0 <= i < j < |plan.hosts| ensures records[i].uuid != records[j].uuid {
      var a, b := At(nas.records, plan.hosts[i].desc), At(nas.records, plan.hosts[j].desc);
      AtMembers(nas.records, plan.hosts[i].desc);
      AtMembers(nas.records, plan.hosts[j].desc);
      assert a[0] in a && b[0] in b;
      UuidsDiffer(nas.records, a[0], b[0]);
    }
    if forall i | 0 <= i < |plan.hosts| :: RowRight(nas, records[i]) {
      forall m | m in records
        ensures NO_UUID < m.uuid < nas.next && CertsOf(nas.services, m.uuid) == RowsFor(m.certID)
      {
        var i :| 0 <= i < |records| && records[i] == m;
        assert RowRight(nas, records[i]);
      }
    } else {
      var i :| 0 <= i < |plan.hosts| && !RowRight(nas, records[i]);
      assert records[i] in records;
    }
  }

  lemma SweepKeepsBooked(nas: Nas, managed: seq<ManagedRecord>, plan: Plan, stale: set<string>)
    requires Booked(nas, managed) && NoStrayRows(nas, managed, Descs(plan)) && stale !! Descs(plan)
    ensures
      var nas' := nas.(records := Drop(nas.records, stale));
      && Booked(nas', managed) && NoStrayRows(nas', managed, Descs(plan))
      && (WellStated(nas'.records, managed, plan) <==> WellStated(nas.records, managed, plan))
  {
    DropMembers(nas.records, stale);
    forall i | 0 <= i < |plan.hosts|
      ensures MisstatedAt(Drop(nas.records, stale), managed, plan, i) == MisstatedAt(nas.records, managed, plan, i)
    {
      AtDrop(nas.records, stale, plan.hosts[i].desc);
    }
  }

  lemma HostsBooked(w: World, plan: Plan, managed: seq<ManagedRecord>)
    requires LedgerReady(w, plan, managed)
    requires SyncHosts(w, plan, managed, |plan.hosts|).halt == Running
    ensures
      var s := SyncHosts(w, plan, managed, |plan.hosts|);
      && (Booked(s.w.nas, s.records) <==> WellStated(w.nas.records, managed, plan))
      && SameRows(w.nas, s.w.nas, Descs(plan))
  {
    var s := SyncHosts(w, plan, managed, |plan.hosts|);
    BookedHosts(w, plan, managed, |plan.hosts|);
    DistinctIsWellNamed(plan);
    HostsOnTrack(w, plan, managed, |plan.hosts|);
    TracksAreBooked(s.w.nas, plan, s.records);
  }

  /** Certificate bookkeeping of a healthy pass that finishes: starting booked, the
      pass ends booked exactly when no host is re-created while certificates are off;
      and the rows of records outside the pass stay as they are. */
  lemma PassKeepsBooked(w: World, plan: Plan, status: Status)
    requires LedgerReady(w, plan, status.managed)
    requires RunPlan(w, plan, status).halt == Running
    ensures
      var p := RunPlan(w, plan, status);
      && (Booked(p.w.nas, p.status.managed) <==> WellStated(w.nas.records, status.managed, plan))
      && SameRows(w.nas, p.w.nas, Territory(status, plan))
  {
    var managed := status.managed;
    var stale := AllStale(status, plan);
    SweepHealthy(w, managed, Descs(plan), |managed|);
    DropKeepsSound(w.nas, stale);
    SweepKeepsBooked(w.nas, managed, plan, stale);
    DropMembers(w.nas.records, stale);
    HostsBooked(Sweep(w, managed, Descs(plan), |managed|).w, plan, managed);
  }

  lemma NoStraysAfter(nas: Nas, nas': Nas, plan: Plan, status: Status, records: seq<ManagedRecord>, mine: set<string>)
    requires NoStrayRows(nas, status.managed, mine)
    requires Tracks(nas', plan, records, |plan.hosts|)
    requires Drop(nas'.records, Descs(plan)) == Drop(nas.records, Territory(status, plan))
    requires SameRows(nas, nas', Territory(status, plan))
    ensures NoStrayRows(nas', records, mine)
  {
    DropMembers(nas'.records, Descs(plan));
    DropMembers(nas.records, Territory(status, plan));
    forall r | r in nas'.records && r.description in mine && PrevOf(records, r.description).None?
      ensures CertsOf(nas'.services, r.uuid) == []
    {
      var d := r.description;
      PrevOfMember(records, d);
      PrevOfMember(status.managed, d);
      if d in Descs(plan) {
        PlannedIsTracked(nas', plan, records, d);
      } else {
        assert r in Drop(nas'.records, Descs(plan));
        if PrevOf(status.managed, d).Some? {
          StaleIsTerritory(status, plan, d);
        }
      }
    }
  }

  lemma PassLeavesNoStrays(w: World, plan: Plan, status: Status, mine: set<string>)
    requires LedgerReady(w, plan, status.managed) && NoStrayRows(w.nas, status.managed, mine)
    requires RunPlan(w, plan, status).halt == Running
    ensures NoStrayRows(RunPlan(w, plan, status).w.nas, RunPlan(w, plan, status).status.managed, mine)
  {
    var p := RunPlan(w, plan, status);
    DistinctIsWellNamed(plan);
    HealthyPass(w, plan, status);
    PassKeepsBooked(w, plan, status);
    NoStraysAfter(w.nas, p.w.nas, plan, status, p.status.managed, mine);
  }

  lemma PlannedIsTracked(nas: Nas, plan: Plan, records: seq<ManagedRecord>, d: string)
    requires Tracks(nas, plan, records, |plan.hosts|) && d in Descs(plan)
    ensures exists m | m in records :: m.description == d
  {
    var i :| 0 <= i < |plan.hosts| && plan.hosts[i].desc == d;
    assert records[i] in records;
  }

  lemma StaleIsTerritory(status: Status, plan: Plan, d: string)
    requires exists m | m in status.managed :: m.description == d
    ensures d in Territory(status, plan)
  {
    var m :| m in status.managed && m.description == d;
    var i :| 0 <= i < |status.managed| && status.managed[i] == m;
    assert d !in Descs(plan) ==> d in AllStale(status, plan);
  }
}
