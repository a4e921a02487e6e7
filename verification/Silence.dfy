/** When the pass after a healthy pass has nothing left to do. */
module Silence {
  import opened Util
  import opened Dsm
  import opened Client
  import opened Proxy
  import opened CertificateChoice
  import opened CertificateService
  import opened Rules
  import opened Sync
  import opened Convergence

  // -------------------------------------------------- the first pass's certificates

  /** Host `i` has no record, or one that is not as planned. */
  predicate Due(rs: seq<ProxyEntry>, plan: Plan, i: nat)
    requires i < |plan.hosts|
  {
    var at := At(rs, plan.hosts[i].desc);
    at == [] || !ProxyRecordEqual(at[0], Want(plan, i))
  }

  /** The certificate a healthy pass that starts from `nas` notes for host `i`: the one it
      assigns, where the record is due and not written for an earlier entry, and otherwise
      the one noted before. */
  function CertAt(nas: Nas, plan: Plan, managed: seq<ManagedRecord>, i: nat): string
    requires i < |plan.hosts|
  {
    if plan.assignCert && plan.hosts[i].desc !in DescsUpTo(plan, i) && Due(nas.records, plan, i) then
      BestCert(nas.certificates, plan.hosts[i].host).0
    else CarriedCert(PrevOf(managed, plan.hosts[i].desc))
  }

  lemma CertifyNotes(w: World, plan: Plan, h: HostEntry, prev: Option<ManagedRecord>, up: Upserted)
    requires w.script == [] && up.uuid != NO_UUID
    ensures
      var c := Certify(w, plan, h, prev, up);
      c.res.Ok? && c.res.value.certID ==
        if plan.assignCert && up.written then BestCert(w.nas.certificates, h.host).0 else CarriedCert(prev)
  {
    var kept := Retire(w, prev, up.uuid, h.host);
    if prev.Some? {
      UnassignHealthy(w, prev.value.uuid, h.host);
    }
    if kept.res.Ok? {
      AssignHealthy(kept.w, up.uuid, h.host, kept.res.value);
    }
  }

  lemma HostNotes(w: World, plan: Plan, i: nat, managed: seq<ManagedRecord>)
    requires i < |plan.hosts| && Sound(w.nas) && w.script == []
    requires SyncHost(w, plan, i, managed).res.Ok?
    ensures SyncHost(w, plan, i, managed).res.value.certID ==
      if plan.assignCert && Due(w.nas.records, plan, i) then BestCert(w.nas.certificates, plan.hosts[i].host).0
      else CarriedCert(PrevOf(managed, plan.hosts[i].desc))
  {
    var u := Upsert(w, RuleAt(plan, i));
    UpsertHealthy(w, RuleAt(plan, i));
    UpsertEffect(w, RuleAt(plan, i));
    UuidInRange(u.w.nas, plan.hosts[i].desc);
    CertifyNotes(u.w, plan, plan.hosts[i], PrevOf(managed, plan.hosts[i].desc), u.res.value);
  }

  /** At its turn a host is due exactly when it was due at the start and not listed before. */
  lemma DueAtTurn(rs: seq<ProxyEntry>, nas: Nas, plan: Plan, records: seq<ManagedRecord>, k: nat)
    requires k < |plan.hosts| && WellNamed(plan) && Tracks(nas, plan, records, k)
    requires Drop(nas.records, DescsUpTo(plan, k)) == Drop(rs, DescsUpTo(plan, k))
    ensures Due(nas.records, plan, k) <==> plan.hosts[k].desc !in DescsUpTo(plan, k) && Due(rs, plan, k)
  {
    var d := plan.hosts[k].desc;
    if d in DescsUpTo(plan, k) {
      var j :| 0 <= j < k && plan.hosts[j].desc == d;
      assert plan.hosts[j] == plan.hosts[k];
    } else {
      AtFrame(nas.records, rs, DescsUpTo(plan, k), d);
    }
  }

  ghost predicate Noted(nas: Nas, plan: Plan, managed: seq<ManagedRecord>, s: Synced, k: nat)
    requires k <= |plan.hosts|
  {
    s.halt == Running ==>
      |s.records| == k && forall i | 0 <= i < k :: s.records[i].certID == CertAt(nas, plan, managed, i)
  }

  ghost predicate OnTrack(w: World, plan: Plan, s: Synced, k: nat)
    requires k <= |plan.hosts|
  {
    && s.w.script == [] && Sound(s.w.nas) && s.w.nas.certificates == w.nas.certificates
    && Drop(s.w.nas.records, DescsUpTo(plan, k)) == Drop(w.nas.records, DescsUpTo(plan, k))
    && (s.halt == Running ==> Tracks(s.w.nas, plan, s.records, k))
  }

  lemma HostsOnTrack(w: World, plan: Plan, managed: seq<ManagedRecord>, k: nat)
    requires k <= |plan.hosts| && Sound(w.nas) && WellNamed(plan) && w.script == []
    ensures OnTrack(w, plan, SyncHosts(w, plan, managed, k), k)
  {
    SyncHealthy(w, plan, managed, k);
    SyncHostsEffect(w, plan, managed, k);
  }

  function NextSynced(s: Synced, plan: Plan, managed: seq<ManagedRecord>, k: nat): Synced
    requires 0 < k <= |plan.hosts|
  {
    if s.halt != Running then s else Advance(s.records, SyncHost(s.w, plan, k - 1, managed))
  }

  lemma NotedStep(w: World, plan: Plan, managed: seq<ManagedRecord>, s: Synced, k: nat)
    requires 0 < k <= |plan.hosts| && WellNamed(plan)
    requires OnTrack(w, plan, s, k - 1) && Noted(w.nas, plan, managed, s, k - 1)
    ensures Noted(w.nas, plan, managed, NextSynced(s, plan, managed, k), k)
  {
    if s.halt == Running && SyncHost(s.w, plan, k - 1, managed).res.Ok? {
      HostNotes(s.w, plan, k - 1, managed);
      DueAtTurn(w.nas.records, s.w.nas, plan, s.records, k - 1);
      NotedAlso(w.nas, plan, managed, s, NextSynced(s, plan, managed, k), k);
    }
  }

  lemma NotedAlso(nas: Nas, plan: Plan, managed: seq<ManagedRecord>, s: Synced, s': Synced, k: nat)
    requires 0 < k <= |plan.hosts| && s.halt == Running && Noted(nas, plan, managed, s, k - 1)
    requires |s'.records| == k && s'.records[..k - 1] == s.records
    requires s'.records[k - 1].certID == CertAt(nas, plan, managed, k - 1)
    ensures Noted(nas, plan, managed, s', k)
  {
    forall i | 0 <= i < k - 1 ensures s'.records[i] == s.records[i] {
      assert s'.records[i] == s'.records[..k - 1][i];
    }
  }

  /** What a healthy pass notes for each host, told from where it starts. */
  lemma {:induction false} HostsNoted(w: World, plan: Plan, managed: seq<ManagedRecord>, k: nat)
    requires k <= |plan.hosts| && Sound(w.nas) && WellNamed(plan) && w.script == []
    ensures Noted(w.nas, plan, managed, SyncHosts(w, plan, managed, k), k)
  {
    if k > 0 {
      HostsNoted(w, plan, managed, k - 1);
      HostsOnTrack(w, plan, managed, k - 1);
      NotedStep(w, plan, managed, SyncHosts(w, plan, managed, k - 1), k);
    }
  }

  lemma PassNotes(w: World, plan: Plan, status: Status)
    requires Sound(w.nas) && WellNamed(plan) && w.script == []
    requires RunPlan(w, plan, status).halt == Running
    ensures
      var p := RunPlan(w, plan, status);
      && |p.status.managed| == |plan.hosts|
      && forall i | 0 <= i < |plan.hosts| ::
           p.status.managed[i].certID == CertAt(w.nas, plan, status.managed, i)
  {
    var managed, stale := status.managed, AllStale(status, plan);
    SweepHealthy(w, managed, Descs(plan), |managed|);
    DropKeepsSound(w.nas, stale);
    var sweep := Sweep(w, managed, Descs(plan), |managed|);
    HostsNoted(sweep.w, plan, managed, |plan.hosts|);
    forall i | 0 <= i < |plan.hosts| ensures CertAt(sweep.w.nas, plan, managed, i) == CertAt(w.nas, plan, managed, i) {
      AtDrop(w.nas.records, stale, plan.hosts[i].desc);
    }
  }

  // ------------------------------------------------------------- the second pass

  /** A host left alone: nothing but a list was sent, and if the list came, `m` is its entry. */
  ghost predicate QuietAs(w: World, h: Did<ManagedRecord>, m: ManagedRecord) {
    && OnlyListed(w, h.w) && (h.res.Ok? ==> h.res.value == m)
    && (w.script == [] ==> h.res.Ok? && h.w.script == [])
  }

  /** A host that is in place and tracked so, or not tracked, is left alone on any network, and
      the certificate last tracked is carried forward. */
  lemma QuietHost(w: World, plan: Plan, i: nat, managed: seq<ManagedRecord>)
    requires i < |plan.hosts| && Sound(w.nas)
    requires
      var at := At(w.nas.records, plan.hosts[i].desc);
      var prev := PrevOf(managed, plan.hosts[i].desc);
      && |at| == 1 && ProxyRecordEqual(at[0], Want(plan, i))
      && (prev.Some? ==> prev.value.uuid == at[0].uuid)
    ensures
      var host := plan.hosts[i];
      QuietAs(w, SyncHost(w, plan, i, managed), ManagedRecord(host.desc, At(w.nas.records, host.desc)[0].uuid,
        host.host, CarriedCert(PrevOf(managed, host.desc))))
  {
    GetEffect(w, plan.hosts[i].desc);
    GetLists(w, plan.hosts[i].desc);
    if w.script == [] {
      GetHealthy(w, plan.hosts[i].desc);
    }
    var g := GetProxyRecord(w, plan.hosts[i].desc);
    if g.res.Ok? {
      assert Upsert(w, RuleAt(plan, i)) == Did(g.w, Ok(Upserted(At(w.nas.records, plan.hosts[i].desc)[0].uuid, false)));
    }
  }

  /** What a pass that finds everything in place makes of host `i`. */
  function Again(managed: seq<ManagedRecord>, i: nat): ManagedRecord
    requires i < |managed|
  {
    managed[i].(certID := CarriedCert(PrevOf(managed, managed[i].description)))
  }

  /** Nothing but lists so far, and each host passed came back as `Again` has it. */
  ghost predicate RepeatedBy(w: World, managed: seq<ManagedRecord>, s: Synced, k: nat)
    requires k <= |managed|
  {
    && OnlyListed(w, s.w)
    && (s.halt == Running ==> |s.records| == k && forall i | 0 <= i < k :: s.records[i] == Again(managed, i))
    && (w.script == [] ==> s.halt == Running && s.w.script == [])
  }

  lemma TrackedUuid(nas: Nas, plan: Plan, managed: seq<ManagedRecord>, i: nat)
    requires Tracks(nas, plan, managed, |plan.hosts|) && i < |plan.hosts|
    ensures
      var prev := PrevOf(managed, plan.hosts[i].desc);
      prev.Some? && prev.value.uuid == managed[i].uuid
  {
    var d := plan.hosts[i].desc;
    PrevOfMember(managed, d);
    assert managed[i] in managed;
    var m := PrevOf(managed, d).value;
    var j :| 0 <= j < |managed| && managed[j] == m;
    assert plan.hosts[j].desc == d;
  }

  lemma RepeatedStep(w: World, managed: seq<ManagedRecord>, s: Synced, h: Did<ManagedRecord>, k: nat)
    requires 0 < k <= |managed| && s.halt == Running
    requires RepeatedBy(w, managed, s, k - 1) && QuietAs(s.w, h, Again(managed, k - 1))
    ensures RepeatedBy(w, managed, Advance(s.records, h), k)
  {
    OnlyListedTrans(w, s.w, h.w);
  }

  lemma NextRepeated(w: World, plan: Plan, managed: seq<ManagedRecord>, s: Synced, k: nat)
    requires 0 < k <= |plan.hosts| && Sound(w.nas) && Tracks(w.nas, plan, managed, |plan.hosts|)
    requires RepeatedBy(w, managed, s, k - 1)
    ensures RepeatedBy(w, managed, NextSynced(s, plan, managed, k), k)
  {
    if s.halt == Running {
      TrackedUuid(w.nas, plan, managed, k - 1);
      QuietHost(s.w, plan, k - 1, managed);
      RepeatedStep(w, managed, s, SyncHost(s.w, plan, k - 1, managed), k);
    }
  }

  lemma {:induction false} HostsRepeated(w: World, plan: Plan, managed: seq<ManagedRecord>, k: nat)
    requires k <= |plan.hosts| && Sound(w.nas) && Tracks(w.nas, plan, managed, |plan.hosts|)
    ensures RepeatedBy(w, managed, SyncHosts(w, plan, managed, k), k)
  {
    if k > 0 {
      HostsRepeated(w, plan, managed, k - 1);
      NextRepeated(w, plan, managed, SyncHosts(w, plan, managed, k - 1), k);
    }
  }

  /** A pass with nothing to sweep whose hosts all succeed, under a status that is up to
      date but perhaps for its records. */
  lemma QuietPass(w: World, plan: Plan, status: Status, s: Synced)
    requires Sweep(w, status.managed, Descs(plan), |status.managed|) == Swept(w, [], false)
    requires s == SyncHosts(w, plan, status.managed, |plan.hosts|) && s.halt == Running
    requires status.synced && status.resolvedHost == plan.destHost && status.resolvedPort == plan.destPort
    ensures RunPlan(w, plan, status) ==
      if s.records == status.managed then Pass(s.w, status, false, Running)
      else Pass(s.w, Status(s.records, |s.records|, true, plan.destHost, plan.destPort), true, Running)
  {
  }

  lemma AllDescribed(nas: Nas, plan: Plan, managed: seq<ManagedRecord>)
    requires Tracks(nas, plan, managed, |plan.hosts|)
    ensures forall m | m in managed :: m.description in Descs(plan)
  {
    forall m | m in managed ensures m.description in Descs(plan) {
      var i :| 0 <= i < |managed| && managed[i] == m;
    }
  }

  lemma SameOrNot(a: seq<ManagedRecord>, b: seq<ManagedRecord>)
    requires |a| == |b|
    ensures a != b <==> exists i | 0 <= i < |a| :: b[i] != a[i]
  {
    if forall i | 0 <= i < |a| :: b[i] == a[i] {
      assert a == b;
    }
  }

  /** A converged pass is a fixed point of DSM: on any network it sends nothing but requests
      for the record list. A finished one leaves each entry with the certificate last noted
      under its description, and writes a status exactly when that changes one. */
  lemma FixedPoint(w: World, plan: Plan, status: Status)
    requires Sound(w.nas) && Converged(w.nas, plan, status)
    ensures
      var p := RunPlan(w, plan, status);
      && OnlyListed(w, p.w)
      && (p.halt == Running ==>
            && |p.status.managed| == |status.managed|
            && forall i | 0 <= i < |status.managed| :: p.status.managed[i] == Again(status.managed, i))
      && (p.write <==>
            p.halt == Running && exists i | 0 <= i < |status.managed| :: status.managed[i] != Again(status.managed, i))
      && (!p.write ==> p.status == status)
      && (w.script == [] ==> p.halt == Running && p.w.script == [])
  {
    var managed := status.managed;
    AllDescribed(w.nas, plan, managed);
    SweepNothing(w, managed, Descs(plan), |managed|);
    HostsRepeated(w, plan, managed, |plan.hosts|);
    var s := SyncHosts(w, plan, managed, |plan.hosts|);
    if s.halt == Running {
      QuietPass(w, plan, status, s);
      SameOrNot(s.records, managed);
    }
  }

  /** With hosts listed once no entry changes. */
  lemma DistinctAgain(nas: Nas, plan: Plan, managed: seq<ManagedRecord>)
    requires Tracks(nas, plan, managed, |plan.hosts|) && Distinct(plan)
    ensures forall i | 0 <= i < |managed| :: managed[i] == Again(managed, i)
  {
    forall i | 0 <= i < |managed| ensures managed[i] == Again(managed, i) {
      var l := LastListed(managed, i);
      assert plan.hosts[i].desc == plan.hosts[l].desc;
    }
  }

  // ------------------------------------------------------------- both together

  /** An entry listed twice agrees: the certificate the first pass assigns, if it writes,
      is the one the status had. */
  ghost predicate RepeatsAgree(nas: Nas, plan: Plan, managed: seq<ManagedRecord>) {
    forall i, j | 0 <= i < j < |plan.hosts| && plan.hosts[i].desc == plan.hosts[j].desc ::
      plan.assignCert && Due(nas.records, plan, i) ==>
        BestCert(nas.certificates, plan.hosts[i].host).0 == CarriedCert(PrevOf(managed, plan.hosts[i].desc))
  }

  lemma {:induction false} FirstListed(plan: Plan, i: nat) returns (f: nat)
    requires i < |plan.hosts|
    ensures f <= i && plan.hosts[f].desc == plan.hosts[i].desc && plan.hosts[f].desc !in DescsUpTo(plan, f)
  {
    if plan.hosts[i].desc in DescsUpTo(plan, i) {
      var j :| 0 <= j < i && plan.hosts[j].desc == plan.hosts[i].desc;
      f := FirstListed(plan, j);
    } else {
      f := i;
    }
  }

  /** The entry last tracked under a description. */
  lemma {:induction false} LastListed(managed: seq<ManagedRecord>, i: nat) returns (l: nat)
    requires i < |managed|
    ensures i <= l < |managed| && managed[l].description == managed[i].description
    ensures PrevOf(managed, managed[i].description) == Some(managed[l])
  {
    var n := |managed| - 1;
    if managed[n].description == managed[i].description {
      l := n;
    } else {
      l := LastListed(managed[..n], i);
    }
  }

  /** The certificates noted agree throughout exactly when entries listed twice do. */
  lemma NotesAgree(nas: Nas, plan: Plan, managed: seq<ManagedRecord>)
    requires WellNamed(plan)
    ensures RepeatsAgree(nas, plan, managed) <==>
      forall i, j | 0 <= i < j < |plan.hosts| && plan.hosts[i].desc == plan.hosts[j].desc ::
        CertAt(nas, plan, managed, i) == CertAt(nas, plan, managed, j)
  {
    forall i, j | 0 <= i < j < |plan.hosts| && plan.hosts[i].desc == plan.hosts[j].desc
      ensures CertAt(nas, plan, managed, j) == CarriedCert(PrevOf(managed, plan.hosts[j].desc))
    {
    }
    if forall i, j | 0 <= i < j < |plan.hosts| && plan.hosts[i].desc == plan.hosts[j].desc ::
        CertAt(nas, plan, managed, i) == CertAt(nas, plan, managed, j)
    {
      forall i, j | 0 <= i < j < |plan.hosts| && plan.hosts[i].desc == plan.hosts[j].desc
        && plan.assignCert && Due(nas.records, plan, i)
        ensures BestCert(nas.certificates, plan.hosts[i].host).0 == CarriedCert(PrevOf(managed, plan.hosts[i].desc))
      {
        var f := FirstListed(plan, i);
        assert plan.hosts[f] == plan.hosts[i];
        assert CertAt(nas, plan, managed, f) == CertAt(nas, plan, managed, j);
      }
    }
  }

  lemma AgainAgrees(nas: Nas, plan: Plan, managed0: seq<ManagedRecord>, nas': Nas, managed: seq<ManagedRecord>)
    requires WellNamed(plan) && Tracks(nas', plan, managed, |plan.hosts|)
    requires forall i | 0 <= i < |plan.hosts| :: managed[i].certID == CertAt(nas, plan, managed0, i)
    ensures (forall i | 0 <= i < |managed| :: managed[i] == Again(managed, i)) <==> RepeatsAgree(nas, plan, managed0)
  {
    NotesAgree(nas, plan, managed0);
    if RepeatsAgree(nas, plan, managed0) {
      forall i | 0 <= i < |managed| ensures managed[i] == Again(managed, i) {
        var l := LastListed(managed, i);
        assert plan.hosts[i].desc == plan.hosts[l].desc;
      }
    } else {
      var i, j :| 0 <= i < j < |plan.hosts| && plan.hosts[i].desc == plan.hosts[j].desc
        && CertAt(nas, plan, managed0, i) != CertAt(nas, plan, managed0, j);
      assert managed[i].description == managed[j].description && managed[i].certID != managed[j].certID;
      assert managed[i] != Again(managed, i) || managed[j] != Again(managed, j);
    }
  }

  /** Two healthy passes in a row, for any hosts: the second asks for record lists only, and
      it writes no status exactly when entries listed twice agree, which can be told before
      the first. */
  lemma SilentExactly(w: World, plan: Plan, status: Status)
    requires Sound(w.nas) && WellNamed(plan) && w.script == []
    requires Unobstructed(Drop(w.nas.records, AllStale(status, plan)), plan, |plan.hosts|)
    ensures
      var first := RunPlan(w, plan, status);
      var second := RunPlan(first.w, plan, first.status);
      && first.halt == Running && second.halt == Running
      && OnlyListed(first.w, second.w)
      && (!second.write <==> RepeatsAgree(w.nas, plan, status.managed))
      && (!second.write ==> second.status == first.status)
  {
    HealthyPass(w, plan, status);
    var failed := PassEffect(w, plan, status);
    PassNotes(w, plan, status);
    var first := RunPlan(w, plan, status);
    FixedPoint(first.w, plan, first.status);
    AgainAgrees(w.nas, plan, status.managed, first.w.nas, first.status.managed);
  }

  /** So with hosts listed once the second pass is silent. */
  lemma OnePassConverges(w: World, plan: Plan, status: Status)
    requires Sound(w.nas) && WellNamed(plan) && Distinct(plan) && w.script == []
    requires Unobstructed(Drop(w.nas.records, AllStale(status, plan)), plan, |plan.hosts|)
    ensures
      var first := RunPlan(w, plan, status);
      var second := RunPlan(first.w, plan, first.status);
      && first.halt == Running && second.halt == Running
      && OnlyListed(first.w, second.w)
      && !second.write && second.status == first.status
  {
    SilentExactly(w, plan, status);
  }

  // ------------------------------------------------------ an additional host twice

  /** The plan of a rule that names an additional host twice, over an empty DSM. */
  lemma NamedTwiceIsClear(plan: Plan, base: string, primary: string, h: string)
    requires plan.hosts == HostsOf(base, primary, [h, h]) && primary != h
    ensures WellNamed(plan) && Unobstructed([], plan, 3)
    ensures plan.hosts[1] == plan.hosts[2] == HostEntry(base + "/" + h, h)
    ensures plan.hosts[1].desc !in DescsUpTo(plan, 1) && plan.hosts[2].desc in DescsUpTo(plan, 2)
  {
    forall i, j | 0 <= i < 3 && 0 <= j < 3 && plan.hosts[i].desc == plan.hosts[j].desc
      ensures plan.hosts[i] == plan.hosts[j]
    {
      HostsWellNamed(base, primary, [h, h], i, j);
    }
    assert plan.hosts[1].desc == plan.hosts[2].desc;
    assert |plan.hosts[1].desc| > |base|;
  }

  lemma LastNamed(managed: seq<ManagedRecord>)
    requires |managed| == 3 && managed[1].description == managed[2].description
    ensures PrevOf(managed, managed[1].description) == Some(managed[2])
  {
  }

  lemma NamedTwiceFirst(w: World, plan: Plan, status: Status, base: string, primary: string, h: string)
    requires plan.hosts == HostsOf(base, primary, [h, h]) && primary != h && plan.assignCert
    requires Sound(w.nas) && w.script == [] && w.nas.records == [] && status.managed == []
    ensures
      var p := RunPlan(w, plan, status);
      && p.halt == Running && p.w.script == [] && Sound(p.w.nas) && Converged(p.w.nas, plan, p.status)
      && p.status.managed[1].description == p.status.managed[2].description
      && p.status.managed[1].certID == BestCert(w.nas.certificates, h).0
      && p.status.managed[2].certID == ""
  {
    NamedTwiceIsClear(plan, base, primary, h);
    assert Drop(w.nas.records, AllStale(status, plan)) == [];
    HealthyPass(w, plan, status);
    PassNotes(w, plan, status);
    var failed := PassEffect(w, plan, status);
  }

  /** Such a rule loses the certificate: the first pass notes it for the first of the two
      entries, the second pass, with nothing changed, writes it away from both, while DSM
      goes on using it. */
  lemma NamedTwiceLosesCertificate(w: World, plan: Plan, status: Status, base: string, primary: string, h: string)
    requires plan.hosts == HostsOf(base, primary, [h, h]) && primary != h && plan.assignCert
    requires Sound(w.nas) && w.script == [] && w.nas.records == [] && status.managed == []
    requires BestCert(w.nas.certificates, h).0 != ""
    ensures
      var first := RunPlan(w, plan, status);
      var second := RunPlan(first.w, plan, first.status);
      && first.halt == Running && second.halt == Running
      && |first.status.managed| == |second.status.managed| == 3
      && first.status.managed[1].certID == BestCert(w.nas.certificates, h).0
      && second.write && second.status.managed[1].certID == ""
      && second.w.nas == first.w.nas
  {
    NamedTwiceFirst(w, plan, status, base, primary, h);
    var first := RunPlan(w, plan, status);
    LastNamed(first.status.managed);
    FixedPoint(first.w, plan, first.status);
  }
}
