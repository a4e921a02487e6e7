/** What a healthy pass does to every certificate row, told from where it starts. */
module RowTurns {
  import opened Util
  import opened Dsm
  import opened Client
  import opened Proxy
  import opened CertificateChoice
  import opened CertificateService
  import opened Rules
  import opened Sync
  import opened Convergence
  import opened Silence
  import opened Ledger
  import opened Rows

  // ----------------------------------------------------------- one assignment

  function SwapFirst(rows: seq<string>, a: string, b: string): seq<string> {
    if rows == [] then []
    else if rows[0] == a then [b] + rows[1..]
    else [rows[0]] + SwapFirst(rows[1..], a, b)
  }

  /** The rows of a record after `id` was assigned in place of `oldId`. */
  function Reassigned(rows: seq<string>, oldId: string, id: string): (r: seq<string>)
    ensures r != []
  {
    if oldId != "" && oldId in rows then SwapFirst(rows, oldId, id) else rows + [id]
  }

  lemma {:induction false} SwapRows(ss: seq<ServiceEntry>, u: Uuid, a: string, b: string)
    requires ServiceEntry(u, a) in ss
    ensures CertsOf(SwapService(ss, ServiceEntry(u, a), ServiceEntry(u, b)), u) == SwapFirst(CertsOf(ss, u), a, b)
  {
    var x, y := ServiceEntry(u, a), ServiceEntry(u, b);
    if ss[0] == x {
      assert SwapService(ss, x, y)[1..] == ss[1..];
      assert CertsOf(ss, u)[1..] == CertsOf(ss[1..], u);
    } else {
      SwapRows(ss[1..], u, a, b);
      assert SwapService(ss, x, y)[1..] == SwapService(ss[1..], x, y);
      if ss[0].uuid == u {
        assert CertsOf(ss, u)[1..] == CertsOf(ss[1..], u);
      }
    }
  }

  lemma SetRows(ss: seq<ServiceEntry>, u: Uuid, oldId: string, id: string, v: Uuid)
    requires id != ""
    ensures CertsOf(SetService(ss, u, oldId, id), v) ==
      if v == u then Reassigned(CertsOf(ss, u), oldId, id) else CertsOf(ss, v)
  {
    if v != u {
      SetLeaves(ss, u, oldId, id, v);
    } else {
      RowsMember(ss, u, oldId);
      RowsAppend(ss, ServiceEntry(u, id), u);
      if oldId != "" && ServiceEntry(u, oldId) in ss {
        SwapRows(ss, u, oldId, id);
      }
    }
  }

  /** The certificate an assignment replaces. */
  function Replaced(prev: Option<ManagedRecord>, uuid: Uuid): string {
    match prev
    case None => ""
    case Some(m) => if m.uuid != NO_UUID && m.uuid != uuid then "" else m.certID
  }

  /** The row `v` after the certificate handling of a host whose record is `uuid`. */
  function CertifiedRow(nas: Nas, plan: Plan, host: string, prev: Option<ManagedRecord>, up: Upserted,
      v: Uuid): seq<string> {
    var best := BestCert(nas.certificates, host).0;
    if v == up.uuid then
      if plan.assignCert && up.written && best != "" then
        Reassigned(CertsOf(nas.services, v), Replaced(prev, up.uuid), best)
      else CertsOf(nas.services, v)
    else if prev.Some? && prev.value.uuid != NO_UUID && prev.value.uuid == v then []
    else CertsOf(nas.services, v)
  }

  lemma CertifyExactly(w: World, plan: Plan, h: HostEntry, prev: Option<ManagedRecord>, up: Upserted, v: Uuid)
    requires w.script == [] && up.uuid != NO_UUID
    ensures CertsOf(Certify(w, plan, h, prev, up).w.nas.services, v) == CertifiedRow(w.nas, plan, h.host, prev, up, v)
  {
    var kept := Retire(w, prev, up.uuid, h.host);
    if prev.Some? && prev.value.uuid != NO_UUID && prev.value.uuid != up.uuid {
      UnassignHealthy(w, prev.value.uuid, h.host);
      RowsWithout(w.nas.services, prev.value.uuid, v);
    }
    assert kept.res == Ok(Replaced(prev, up.uuid)) && kept.w.script == [];
    var best := BestCert(w.nas.certificates, h.host).0;
    AssignHealthy(kept.w, up.uuid, h.host, kept.res.value);
    if best != "" {
      SetRows(kept.w.nas.services, up.uuid, kept.res.value, best, v);
    }
  }

  // --------------------------------------------------------------- one host

  /** The certificate found for host `i`, "" if none. */
  function Best(nas: Nas, plan: Plan, i: nat): string
    requires i < |plan.hosts|
  {
    BestCert(nas.certificates, plan.hosts[i].host).0
  }

  /** Host `i` is the first entry of its description, will be written and gets a certificate. */
  predicate Assigns(nas: Nas, plan: Plan, i: nat)
    requires i < |plan.hosts|
  {
    && plan.assignCert && plan.hosts[i].desc !in DescsUpTo(plan, i)
    && Due(nas.records, plan, i) && Best(nas, plan, i) != ""
  }

  /** And it does so for the record `v`, which is there. */
  predicate AssignsTo(nas: Nas, plan: Plan, i: nat, v: Uuid)
    requires i < |plan.hosts|
  {
    var at := At(nas.records, plan.hosts[i].desc);
    Assigns(nas, plan, i) && at != [] && at[0].uuid == v
  }

  /** Host `i` has the rows of `v` removed: `v` is tracked for it, and its record is another. */
  predicate Drops(nas: Nas, plan: Plan, managed: seq<ManagedRecord>, i: nat, v: Uuid)
    requires i < |plan.hosts|
  {
    var at := At(nas.records, plan.hosts[i].desc);
    var prev := PrevOf(managed, plan.hosts[i].desc);
    && prev.Some? && prev.value.uuid != NO_UUID && prev.value.uuid == v
    && (at == [] || at[0].uuid != v)
  }

  /** The rows a record of host `i` starts with when it is created. */
  function FreshRows(nas: Nas, plan: Plan, i: nat): seq<string>
    requires i < |plan.hosts|
  {
    if plan.assignCert && Best(nas, plan, i) != "" then [Best(nas, plan, i)] else []
  }

  /** UUIDs not yet allocated have no rows. */
  ghost predicate NoFutureRows(nas: Nas) {
    forall u: Uuid | nas.next <= u :: CertsOf(nas.services, u) == []
  }

  /** The rule tracks UUIDs that DSM has given out. */
  ghost predicate Allocated(nas: Nas, managed: seq<ManagedRecord>) {
    forall m | m in managed :: m.uuid < nas.next
  }

  /** The rule tracks allocated UUIDs, and none of a record of its plan under the description
      of another. */
  ghost predicate Uncrossed(nas: Nas, plan: Plan, managed: seq<ManagedRecord>) {
    && Allocated(nas, managed)
    && (forall m, r | m in managed && r in nas.records && r.description in Descs(plan) && r.uuid == m.uuid ::
          r.description == m.description)
  }

  // -------------------------------------------------------------- all hosts

  ghost predicate Dropped(nas: Nas, plan: Plan, managed: seq<ManagedRecord>, k: nat, v: Uuid)
    requires k <= |plan.hosts|
  {
    exists i | 0 <= i < k :: Drops(nas, plan, managed, i, v)
  }

  ghost predicate Assigned(nas: Nas, plan: Plan, k: nat, v: Uuid)
    requires k <= |plan.hosts|
  {
    exists i | 0 <= i < k :: AssignsTo(nas, plan, i, v)
  }

  /** The row `v` after `k` hosts, if `v` was allocated before. */
  ghost predicate OldRow(nas0: Nas, nas: Nas, plan: Plan, managed: seq<ManagedRecord>, k: nat, v: Uuid)
    requires k <= |plan.hosts|
  {
    var rows := CertsOf(nas.services, v);
    && (Dropped(nas0, plan, managed, k, v) ==> rows == [])
    && (forall i | 0 <= i < k && AssignsTo(nas0, plan, i, v) ::
          var prev := PrevOf(managed, plan.hosts[i].desc);
          rows == Reassigned(CertsOf(nas0.services, v), Replaced(prev, v), Best(nas0, plan, i)))
    && (!Dropped(nas0, plan, managed, k, v) && !Assigned(nas0, plan, k, v) ==> rows == CertsOf(nas0.services, v))
  }

  /** The record of host `i` after it: with the UUID it had, or a fresh one and its first rows. */
  ghost predicate NewRow(nas0: Nas, nas: Nas, plan: Plan, i: nat)
    requires i < |plan.hosts|
  {
    var at := At(nas.records, plan.hosts[i].desc);
    && at != [] && Placed(nas0.records, nas0.next, plan.hosts[i].desc, at[0].uuid)
    && (At(nas0.records, plan.hosts[i].desc) == [] ==> CertsOf(nas.services, at[0].uuid) == FreshRows(nas0, plan, i))
  }

  ghost predicate FreshAfter(nas0: Nas, nas: Nas, plan: Plan, k: nat)
    requires k <= |plan.hosts|
  {
    && nas0.next <= nas.next && NoFutureRows(nas)
    && (forall i | 0 <= i < k :: NewRow(nas0, nas, plan, i))
  }

  ghost predicate RowsAfter(nas0: Nas, nas: Nas, plan: Plan, managed: seq<ManagedRecord>, k: nat)
    requires k <= |plan.hosts|
  {
    && FreshAfter(nas0, nas, plan, k)
    && (forall v: Uuid | v < nas0.next :: OldRow(nas0, nas, plan, managed, k, v))
  }

  /** How the record of host `k` and the rows are after its turn. */
  ghost predicate HostRows(nas: Nas, nas': Nas, plan: Plan, managed: seq<ManagedRecord>, k: nat)
    requires k < |plan.hosts|
  {
    var d := plan.hosts[k].desc;
    var at, at' := At(nas.records, d), At(nas'.records, d);
    && nas.next <= nas'.next && Drop(nas'.records, {d}) == Drop(nas.records, {d})
    && at' != [] && at'[0].uuid == (if at == [] then nas.next else at[0].uuid)
    && at'[0].uuid < nas'.next
    && forall v: Uuid :: CertsOf(nas'.services, v) ==
         CertifiedRow(nas, plan, plan.hosts[k].host, PrevOf(managed, d),
           Upserted(at'[0].uuid, Due(nas.records, plan, k)), v)
  }

  lemma HostRowsExactly(w: World, plan: Plan, k: nat, managed: seq<ManagedRecord>)
    requires k < |plan.hosts| && Sound(w.nas) && w.script == [] && SyncHost(w, plan, k, managed).res.Ok?
    ensures HostRows(w.nas, SyncHost(w, plan, k, managed).w.nas, plan, managed, k)
  {
    var d := plan.hosts[k].desc;
    var u := Upsert(w, RuleAt(plan, k));
    UpsertHealthy(w, RuleAt(plan, k));
    UpsertEffect(w, RuleAt(plan, k));
    UuidInRange(u.w.nas, d);
    CertifyEffect(u.w, plan, plan.hosts[k], PrevOf(managed, d), u.res.value);
    forall v: Uuid
      ensures CertsOf(SyncHost(w, plan, k, managed).w.nas.services, v) ==
        CertifiedRow(w.nas, plan, plan.hosts[k].host, PrevOf(managed, d), u.res.value, v)
    {
      CertifyExactly(u.w, plan, plan.hosts[k], PrevOf(managed, d), u.res.value, v);
    }
  }

  /** A record of the plan is not one whose rows are removed. */
  lemma OwnNotDropped(nas: Nas, plan: Plan, managed: seq<ManagedRecord>, r: ProxyEntry, i: nat)
    requires Sound(nas) && Uncrossed(nas, plan, managed) && i < |plan.hosts|
    requires r in nas.records && r.description in Descs(plan)
    ensures !Drops(nas, plan, managed, i, r.uuid)
  {
    var d := plan.hosts[i].desc;
    PrevOfMember(managed, d);
    AtMembers(nas.records, d);
    assert r.description == d ==> r in At(nas.records, d);
  }

  lemma AssignedIsOwn(nas: Nas, plan: Plan, i: nat, v: Uuid) returns (r: ProxyEntry)
    requires i < |plan.hosts| && AssignsTo(nas, plan, i, v)
    ensures r in nas.records && r.description == plan.hosts[i].desc && r.uuid == v
    ensures r.description in Descs(plan)
  {
    r := At(nas.records, plan.hosts[i].desc)[0];
    AtMembers(nas.records, plan.hosts[i].desc);
    assert r in At(nas.records, plan.hosts[i].desc);
  }

  lemma AssignedNotDropped(nas: Nas, plan: Plan, managed: seq<ManagedRecord>, i: nat, x: nat, v: Uuid)
    requires Sound(nas) && Uncrossed(nas, plan, managed) && i < |plan.hosts| && x < |plan.hosts|
    requires AssignsTo(nas, plan, i, v)
    ensures !Drops(nas, plan, managed, x, v)
  {
    var r := AssignedIsOwn(nas, plan, i, v);
    OwnNotDropped(nas, plan, managed, r, x);
  }

  lemma AssignedOnce(nas: Nas, plan: Plan, i: nat, x: nat, v: Uuid)
    requires Sound(nas) && i < |plan.hosts| && x < |plan.hosts|
    requires AssignsTo(nas, plan, i, v) && AssignsTo(nas, plan, x, v)
    ensures i == x
  {
    var r := AssignedIsOwn(nas, plan, i, v);
    var q := AssignedIsOwn(nas, plan, x, v);
    if r != q {
      UuidsDiffer(nas.records, r, q);
    }
  }

  /** What the bookkeeping of one more host rests on. */
  ghost predicate RowStep(nas0: Nas, nas: Nas, nas': Nas, plan: Plan, managed: seq<ManagedRecord>, k: nat)
    requires k < |plan.hosts|
  {
    var d := plan.hosts[k].desc;
    && Sound(nas0) && Sound(nas) && WellNamed(plan) && Allocated(nas0, managed)
    && nas.certificates == nas0.certificates
    && (d !in DescsUpTo(plan, k) ==> At(nas.records, d) == At(nas0.records, d))
    && (Due(nas.records, plan, k) <==> d !in DescsUpTo(plan, k) && Due(nas0.records, plan, k))
    && HostRows(nas, nas', plan, managed, k)
  }

  lemma NextPlaced(nas0: Nas, nas: Nas, nas': Nas, plan: Plan, managed: seq<ManagedRecord>, k: nat)
    requires k < |plan.hosts| && RowStep(nas0, nas, nas', plan, managed, k) && FreshAfter(nas0, nas, plan, k)
    ensures Placed(nas0.records, nas0.next, plan.hosts[k].desc, At(nas'.records, plan.hosts[k].desc)[0].uuid)
  {
    var d := plan.hosts[k].desc;
    if d in DescsUpTo(plan, k) {
      var j :| 0 <= j < k && plan.hosts[j].desc == d;
      assert NewRow(nas0, nas, plan, j);
    }
  }

  /** The row the certificate handling of host `k` assigns. */
  lemma NextAssigned(nas0: Nas, nas: Nas, nas': Nas, plan: Plan, managed: seq<ManagedRecord>, k: nat, v: Uuid)
    requires k < |plan.hosts| && RowStep(nas0, nas, nas', plan, managed, k) && RowsAfter(nas0, nas, plan, managed, k)
    requires v < nas0.next && AssignsTo(nas0, plan, k, v)
    requires Uncrossed(nas0, plan, managed)
    ensures OldRow(nas0, nas', plan, managed, k + 1, v)
  {
    var d := plan.hosts[k].desc;
    assert OldRow(nas0, nas, plan, managed, k, v);
    forall i | 0 <= i <= k ensures !Drops(nas0, plan, managed, i, v) && (AssignsTo(nas0, plan, i, v) ==> i == k) {
      AssignedNotDropped(nas0, plan, managed, k, i, v);
      if AssignsTo(nas0, plan, i, v) {
        AssignedOnce(nas0, plan, i, k, v);
      }
    }
    assert CertsOf(nas.services, v) == CertsOf(nas0.services, v);
    assert At(nas'.records, d)[0].uuid == v;
  }

  lemma NextDropped(nas0: Nas, nas: Nas, nas': Nas, plan: Plan, managed: seq<ManagedRecord>, k: nat, v: Uuid)
    requires k < |plan.hosts| && RowStep(nas0, nas, nas', plan, managed, k) && RowsAfter(nas0, nas, plan, managed, k)
    requires v < nas0.next && Drops(nas0, plan, managed, k, v)
    requires Uncrossed(nas0, plan, managed)
    ensures OldRow(nas0, nas', plan, managed, k + 1, v)
  {
    NextPlaced(nas0, nas, nas', plan, managed, k);
    forall i | 0 <= i <= k ensures !AssignsTo(nas0, plan, i, v) {
      if AssignsTo(nas0, plan, i, v) {
        AssignedNotDropped(nas0, plan, managed, i, k, v);
      }
    }
  }

  lemma NextOther(nas0: Nas, nas: Nas, nas': Nas, plan: Plan, managed: seq<ManagedRecord>, k: nat, v: Uuid)
    requires k < |plan.hosts| && RowStep(nas0, nas, nas', plan, managed, k) && RowsAfter(nas0, nas, plan, managed, k)
    requires v < nas0.next && !Drops(nas0, plan, managed, k, v) && !AssignsTo(nas0, plan, k, v)
    requires Uncrossed(nas0, plan, managed)
    ensures OldRow(nas0, nas', plan, managed, k + 1, v)
  {
    NextPlaced(nas0, nas, nas', plan, managed, k);
    assert OldRow(nas0, nas, plan, managed, k, v);
    RowUntouched(nas0, nas, nas', plan, managed, k, v);
    DroppedNext(nas0, plan, managed, k, v);
  }

  lemma DroppedNext(nas: Nas, plan: Plan, managed: seq<ManagedRecord>, k: nat, v: Uuid)
    requires k < |plan.hosts|
    ensures Dropped(nas, plan, managed, k + 1, v) <==>
      Dropped(nas, plan, managed, k, v) || Drops(nas, plan, managed, k, v)
    ensures Assigned(nas, plan, k + 1, v) <==> Assigned(nas, plan, k, v) || AssignsTo(nas, plan, k, v)
  {
  }

  lemma RowUntouched(nas0: Nas, nas: Nas, nas': Nas, plan: Plan, managed: seq<ManagedRecord>, k: nat, v: Uuid)
    requires k < |plan.hosts| && RowStep(nas0, nas, nas', plan, managed, k)
    requires Placed(nas0.records, nas0.next, plan.hosts[k].desc, At(nas'.records, plan.hosts[k].desc)[0].uuid)
    requires v < nas0.next && !Drops(nas0, plan, managed, k, v) && !AssignsTo(nas0, plan, k, v)
    ensures CertsOf(nas'.services, v) == CertsOf(nas.services, v)
  {
  }

  lemma NextNew(nas0: Nas, nas: Nas, nas': Nas, plan: Plan, managed: seq<ManagedRecord>, k: nat)
    requires k < |plan.hosts| && RowStep(nas0, nas, nas', plan, managed, k) && FreshAfter(nas0, nas, plan, k)
    ensures NewRow(nas0, nas', plan, k)
  {
    var d := plan.hosts[k].desc;
    NextPlaced(nas0, nas, nas', plan, managed, k);
    if d in DescsUpTo(plan, k) {
      var j :| 0 <= j < k && plan.hosts[j].desc == d;
      assert plan.hosts[j] == plan.hosts[k] && NewRow(nas0, nas, plan, j);
    }
  }

  lemma EarlierNew(nas0: Nas, nas: Nas, nas': Nas, plan: Plan, managed: seq<ManagedRecord>, k: nat, i: nat)
    requires i < k < |plan.hosts| && RowStep(nas0, nas, nas', plan, managed, k)
    requires FreshAfter(nas0, nas, plan, k)
    requires plan.hosts[i].desc != plan.hosts[k].desc
    ensures NewRow(nas0, nas', plan, i)
  {
    var d, e := plan.hosts[k].desc, plan.hosts[i].desc;
    assert NewRow(nas0, nas, plan, i);
    AtFrame(nas'.records, nas.records, {d}, e);
    PrevOfMember(managed, d);
    var a, b := At(nas.records, e), At(nas.records, d);
    AtMembers(nas.records, e);
    AtMembers(nas.records, d);
    assert a[0] in a;
    if b != [] {
      assert b[0] in b;
      UuidsDiffer(nas.records, a[0], b[0]);
    }
  }

  lemma FreshStep(nas0: Nas, nas: Nas, nas': Nas, plan: Plan, managed: seq<ManagedRecord>, k: nat)
    requires k < |plan.hosts| && RowStep(nas0, nas, nas', plan, managed, k) && FreshAfter(nas0, nas, plan, k)
    ensures FreshAfter(nas0, nas', plan, k + 1)
  {
    NextNew(nas0, nas, nas', plan, managed, k);
    forall i | 0 <= i < k ensures NewRow(nas0, nas', plan, i) {
      if plan.hosts[i].desc == plan.hosts[k].desc {
        assert plan.hosts[i] == plan.hosts[k];
      } else {
        EarlierNew(nas0, nas, nas', plan, managed, k, i);
      }
    }
    NoFutureStep(nas0, nas, nas', plan, managed, k);
  }

  lemma RowsAfterStep(nas0: Nas, nas: Nas, nas': Nas, plan: Plan, managed: seq<ManagedRecord>, k: nat)
    requires k < |plan.hosts| && RowStep(nas0, nas, nas', plan, managed, k) && RowsAfter(nas0, nas, plan, managed, k)
    requires Uncrossed(nas0, plan, managed)
    ensures RowsAfter(nas0, nas', plan, managed, k + 1)
  {
    FreshStep(nas0, nas, nas', plan, managed, k);
    var n := k + 1;
    forall v: Uuid | v < nas0.next ensures OldRow(nas0, nas', plan, managed, n, v) {
      if AssignsTo(nas0, plan, k, v) {
        NextAssigned(nas0, nas, nas', plan, managed, k, v);
      } else if Drops(nas0, plan, managed, k, v) {
        NextDropped(nas0, nas, nas', plan, managed, k, v);
      } else {
        NextOther(nas0, nas, nas', plan, managed, k, v);
      }
    }
  }

  lemma NoFutureStep(nas0: Nas, nas: Nas, nas': Nas, plan: Plan, managed: seq<ManagedRecord>, k: nat)
    requires k < |plan.hosts| && RowStep(nas0, nas, nas', plan, managed, k) && FreshAfter(nas0, nas, plan, k)
    ensures NoFutureRows(nas')
  {
    PrevOfMember(managed, plan.hosts[k].desc);
  }

  // ------------------------------------------------------------ a whole pass

  ghost predicate FreshReady(nas: Nas, plan: Plan, managed: seq<ManagedRecord>) {
    Sound(nas) && WellNamed(plan) && NoFutureRows(nas) && Allocated(nas, managed)
  }

  ghost predicate RowsReady(nas: Nas, plan: Plan, managed: seq<ManagedRecord>) {
    FreshReady(nas, plan, managed) && Uncrossed(nas, plan, managed)
  }

  lemma HostsRowStep(w: World, plan: Plan, managed: seq<ManagedRecord>, s: Synced, k: nat)
    requires 0 < k <= |plan.hosts| && FreshReady(w.nas, plan, managed)
    requires s.halt == Running && OnTrack(w, plan, s, k - 1)
    requires SyncHost(s.w, plan, k - 1, managed).res.Ok?
    ensures RowStep(w.nas, s.w.nas, SyncHost(s.w, plan, k - 1, managed).w.nas, plan, managed, k - 1)
  {
    HostRowsExactly(s.w, plan, k - 1, managed);
    DueAtTurn(w.nas.records, s.w.nas, plan, s.records, k - 1);
    if plan.hosts[k - 1].desc !in DescsUpTo(plan, k - 1) {
      AtFrame(s.w.nas.records, w.nas.records, DescsUpTo(plan, k - 1), plan.hosts[k - 1].desc);
    }
  }

  ghost predicate RowsSoFar(w: World, plan: Plan, managed: seq<ManagedRecord>, s: Synced, k: nat)
    requires k <= |plan.hosts|
  {
    s.halt == Running ==> RowsAfter(w.nas, s.w.nas, plan, managed, k)
  }

  lemma NextRows(w: World, plan: Plan, managed: seq<ManagedRecord>, s: Synced, k: nat)
    requires 0 < k <= |plan.hosts| && RowsReady(w.nas, plan, managed) && OnTrack(w, plan, s, k - 1)
    requires RowsSoFar(w, plan, managed, s, k - 1)
    ensures RowsSoFar(w, plan, managed, NextSynced(s, plan, managed, k), k)
  {
    var h := SyncHost(s.w, plan, k - 1, managed);
    if s.halt == Running && h.res.Ok? {
      HostsRowStep(w, plan, managed, s, k);
      RowsAfterStep(w.nas, s.w.nas, h.w.nas, plan, managed, k - 1);
    }
  }

  lemma LastRows(w: World, plan: Plan, managed: seq<ManagedRecord>, s: Synced, k: nat)
    requires 0 < k <= |plan.hosts| && RowsReady(w.nas, plan, managed) && w.script == []
    requires s == SyncHosts(w, plan, managed, k - 1) && RowsSoFar(w, plan, managed, s, k - 1)
    ensures RowsSoFar(w, plan, managed, SyncHosts(w, plan, managed, k), k)
  {
    HostsOnTrack(w, plan, managed, k - 1);
    NextRows(w, plan, managed, s, k);
  }

  lemma FirstRows(w: World, plan: Plan, managed: seq<ManagedRecord>)
    requires RowsReady(w.nas, plan, managed)
    ensures RowsSoFar(w, plan, managed, SyncHosts(w, plan, managed, 0), 0)
  {
  }

  lemma {:induction false} HostsRows(w: World, plan: Plan, managed: seq<ManagedRecord>, k: nat)
    requires k <= |plan.hosts| && RowsReady(w.nas, plan, managed) && w.script == []
    ensures RowsSoFar(w, plan, managed, SyncHosts(w, plan, managed, k), k)
    decreases k
  {
    if k == 0 {
      FirstRows(w, plan, managed);
    } else {
      HostsRows(w, plan, managed, k - 1);
      LastRows(w, plan, managed, SyncHosts(w, plan, managed, k - 1), k);
    }
  }

  ghost predicate FreshSoFar(w: World, plan: Plan, s: Synced, k: nat)
    requires k <= |plan.hosts|
  {
    s.halt == Running ==> FreshAfter(w.nas, s.w.nas, plan, k)
  }

  lemma NextFresh(w: World, plan: Plan, managed: seq<ManagedRecord>, s: Synced, k: nat)
    requires 0 < k <= |plan.hosts| && FreshReady(w.nas, plan, managed) && OnTrack(w, plan, s, k - 1)
    requires FreshSoFar(w, plan, s, k - 1)
    ensures FreshSoFar(w, plan, NextSynced(s, plan, managed, k), k)
  {
    var h := SyncHost(s.w, plan, k - 1, managed);
    if s.halt == Running && h.res.Ok? {
      HostsRowStep(w, plan, managed, s, k);
      FreshStep(w.nas, s.w.nas, h.w.nas, plan, managed, k - 1);
    }
  }

  lemma {:induction false} HostsFresh(w: World, plan: Plan, managed: seq<ManagedRecord>, k: nat)
    requires k <= |plan.hosts| && FreshReady(w.nas, plan, managed) && w.script == []
    ensures FreshSoFar(w, plan, SyncHosts(w, plan, managed, k), k)
  {
    if k > 0 {
      HostsFresh(w, plan, managed, k - 1);
      HostsOnTrack(w, plan, managed, k - 1);
      NextFresh(w, plan, managed, SyncHosts(w, plan, managed, k - 1), k);
    }
  }

  /** Every record that a healthy finished pass creates has the row of its certificate and no
      other, whatever the status tracks, as long as DSM has given out the UUIDs in it. */
  lemma PassFresh(w: World, plan: Plan, status: Status, i: nat)
    requires w.script == [] && FreshReady(w.nas, plan, status.managed) && i < |plan.hosts|
    requires RunPlan(w, plan, status).halt == Running && At(w.nas.records, plan.hosts[i].desc) == []
    ensures
      var nas' := RunPlan(w, plan, status).w.nas;
      var at := At(nas'.records, plan.hosts[i].desc);
      at != [] && at[0].uuid >= w.nas.next && CertsOf(nas'.services, at[0].uuid) == FreshRows(w.nas, plan, i)
  {
    var managed, stale := status.managed, AllStale(status, plan);
    SweepHealthy(w, managed, Descs(plan), |managed|);
    DropKeepsSound(w.nas, stale);
    var v := Sweep(w, managed, Descs(plan), |managed|).w;
    HostsFresh(v, plan, managed, |plan.hosts|);
    assert NewRow(v.nas, RunPlan(w, plan, status).w.nas, plan, i);
    AtDrop(w.nas.records, stale, plan.hosts[i].desc);
  }

  /** The sweep changes neither rows nor anything the hosts go by. */
  lemma RowsAfterSweep(nas0: Nas, stale: set<string>, nas: Nas, plan: Plan, managed: seq<ManagedRecord>, k: nat)
    requires k <= |plan.hosts| && stale !! Descs(plan)
    requires RowsAfter(nas0.(records := Drop(nas0.records, stale)), nas, plan, managed, k)
    ensures RowsAfter(nas0, nas, plan, managed, k)
  {
    var swept := nas0.(records := Drop(nas0.records, stale));
    forall i | 0 <= i < |plan.hosts|
      ensures At(swept.records, plan.hosts[i].desc) == At(nas0.records, plan.hosts[i].desc)
    {
      AtDrop(nas0.records, stale, plan.hosts[i].desc);
    }
    forall v: Uuid | v < nas0.next ensures OldRow(nas0, nas, plan, managed, k, v) {
      SameOldRow(nas0, swept, nas, plan, managed, k, v);
    }
    forall i | 0 <= i < k ensures NewRow(nas0, nas, plan, i) {
      assert NewRow(swept, nas, plan, i);
    }
  }

  /** What is removed and assigned depends on the records of the plan alone. */
  ghost predicate SameCorner(nas0: Nas, nas1: Nas, plan: Plan) {
    && nas0.certificates == nas1.certificates
    && forall i | 0 <= i < |plan.hosts| :: At(nas0.records, plan.hosts[i].desc) == At(nas1.records, plan.hosts[i].desc)
  }

  lemma SameOldRow(nas0: Nas, nas1: Nas, nas: Nas, plan: Plan, managed: seq<ManagedRecord>, k: nat, v: Uuid)
    requires k <= |plan.hosts| && SameCorner(nas0, nas1, plan) && nas0.services == nas1.services
    requires OldRow(nas1, nas, plan, managed, k, v)
    ensures OldRow(nas0, nas, plan, managed, k, v)
  {
    forall i | 0 <= i < k
      ensures Drops(nas0, plan, managed, i, v) == Drops(nas1, plan, managed, i, v)
      ensures AssignsTo(nas0, plan, i, v) == AssignsTo(nas1, plan, i, v)
    {
    }
    assert Dropped(nas0, plan, managed, k, v) == Dropped(nas1, plan, managed, k, v);
    assert Assigned(nas0, plan, k, v) == Assigned(nas1, plan, k, v);
  }

  /** A healthy pass that gets to host `k`: each row it finds is removed, assigned or left as
      is, and each record it creates has the row of its certificate, all told before it. */
  lemma PassRows(w: World, plan: Plan, status: Status, k: nat)
    requires w.script == [] && RowsReady(w.nas, plan, status.managed) && k <= |plan.hosts|
    requires
      var swept := Drop(w.nas.records, AllStale(status, plan));
      Unobstructed(swept, plan, k) && (k < |plan.hosts| ==> !Clear(swept, plan, k))
    ensures RowsAfter(w.nas, RunPlan(w, plan, status).w.nas, plan, status.managed, k)
  {
    var managed, stale := status.managed, AllStale(status, plan);
    SweepHealthy(w, managed, Descs(plan), |managed|);
    DropKeepsSound(w.nas, stale);
    DropMembers(w.nas.records, stale);
    var v := Sweep(w, managed, Descs(plan), |managed|).w;
    RunsUpTo(v, plan, managed, k);
    HostsRows(v, plan, managed, k);
    if k < |plan.hosts| {
      StopsThere(v, plan, managed, k);
    }
    RowsAfterSweep(w.nas, stale, RunPlan(w, plan, status).w.nas, plan, managed, k);
  }
}
