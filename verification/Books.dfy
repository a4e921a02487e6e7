/** Certificate rows over whole runs: passes that finish or stop, records deleted by
    others, and the deletion of the rule. */
module Books {
  import opened Util
  import opened Dsm
  import opened Client
  import opened Proxy
  import opened CertificateChoice
  import opened CertificateService
  import opened Rules
  import opened Sync
  import opened Convergence
  import opened Silence
  import opened Finalizer
  import opened Ledger

  // ----------------------------------------------------------- a pass that stops

  /** Bringing host `i` in place leaves the status as good as it was: a tracked record is
      there, and if it is written it gets the certificate the status names; a record that is
      not tracked gets none. */
  predicate Undisturbed(nas: Nas, plan: Plan, managed: seq<ManagedRecord>, i: nat)
    requires i < |plan.hosts|
  {
    var d := plan.hosts[i].desc;
    var assigns := plan.assignCert && Due(nas.records, plan, i);
    match PrevOf(managed, d)
    case Some(m) =>
      && At(nas.records, d) != []
      && (assigns ==> BestCert(nas.certificates, plan.hosts[i].host).0 == m.certID)
    case None => !assigns
  }

  /** A healthy pass keeps the books in order: it finishes and re-creates no record while
      certificates are off, or it stops and has disturbed no host it brought in place. */
  predicate KeepsOrder(nas: Nas, plan: Plan, status: Status) {
    var swept := Drop(nas.records, AllStale(status, plan));
    if Unobstructed(swept, plan, |plan.hosts|) then WellStated(nas.records, status.managed, plan)
    else forall i | 0 <= i < |plan.hosts| && ClearTo(swept, plan, i) :: Undisturbed(nas, plan, status.managed, i)
  }

  /** A pass gets as far as host `i`, and past it. */
  predicate ClearTo(rs: seq<ProxyEntry>, plan: Plan, i: nat)
    requires i < |plan.hosts|
  {
    Unobstructed(rs, plan, i + 1)
  }

  /** A host brought in place, tracked before: its status entry is right afterwards exactly
      when the host was not disturbed. */
  lemma TrackedBehind(nas0: Nas, nas: Nas, plan: Plan, managed: seq<ManagedRecord>, records: seq<ManagedRecord>,
      k: nat, i: nat, m: ManagedRecord)
    requires i < k <= |plan.hosts| && |records| == k && Distinct(plan) && Sound(nas0) && Booked(nas0, managed)
    requires RowsBehind(nas0, nas, plan, managed, records, k)
    requires records[i].certID == CertAt(nas0, plan, managed, i)
    requires PrevOf(managed, plan.hosts[i].desc) == Some(m)
    ensures records[i].uuid == m.uuid && RowRight(nas, m) <==> Undisturbed(nas0, plan, managed, i)
  {
    var d := plan.hosts[i].desc;
    PrevOfMember(managed, d);
    AtMembers(nas0.records, d);
    var at := At(nas0.records, d);
    if at != [] {
      assert at[0] in at;
      assert at[0].uuid == m.uuid;
    }
    assert d !in DescsUpTo(plan, i);
    assert RowsFor(records[i].certID) == RowsFor(m.certID) <==> records[i].certID == m.certID by {
      RowsForInjective(records[i].certID, m.certID);
    }
  }

  lemma RowsForInjective(a: string, b: string)
    ensures RowsFor(a) == RowsFor(b) <==> a == b
  {
    if a != "" && b != "" && a != b {
      assert [a][0] != [b][0];
    }
  }

  /** A host brought in place, not tracked before: its record has no row afterwards exactly
      when the host was not disturbed. */
  lemma UntrackedBehind(nas0: Nas, nas: Nas, plan: Plan, managed: seq<ManagedRecord>, records: seq<ManagedRecord>,
      k: nat, i: nat)
    requires i < k <= |plan.hosts| && |records| == k && Distinct(plan)
    requires BestCert(nas0.certificates, plan.hosts[i].host).0 != ""
    requires RowsBehind(nas0, nas, plan, managed, records, k)
    requires records[i].certID == CertAt(nas0, plan, managed, i)
    requires PrevOf(managed, plan.hosts[i].desc).None?
    ensures CertsOf(nas.services, records[i].uuid) == [] <==> Undisturbed(nas0, plan, managed, i)
  {
    assert plan.hosts[i].desc !in DescsUpTo(plan, i);
    RowsForInjective(records[i].certID, "");
  }

  /** The state of a pass that has brought `k` hosts in place. */
  ghost predicate Halfway(nas0: Nas, nas: Nas, plan: Plan, managed: seq<ManagedRecord>, records: seq<ManagedRecord>,
      k: nat)
    requires k <= |plan.hosts|
  {
    && Distinct(plan) && Sound(nas0) && Sound(nas) && Booked(nas0, managed) && CertsForAll(nas0, plan)
    && BookedBy(nas0, nas, plan, managed, records, k)
    && forall i | 0 <= i < k :: records[i].certID == CertAt(nas0, plan, managed, i)
  }

  ghost predicate UndisturbedUpTo(nas0: Nas, plan: Plan, managed: seq<ManagedRecord>, k: nat)
    requires k <= |plan.hosts|
  {
    forall i | 0 <= i < k :: Undisturbed(nas0, plan, managed, i)
  }

  /** A record halfway: the host's own, or one that was there. */
  lemma RecordHalfway(nas0: Nas, nas: Nas, plan: Plan, managed: seq<ManagedRecord>, records: seq<ManagedRecord>,
      k: nat, r: ProxyEntry)
    requires k <= |plan.hosts| && Halfway(nas0, nas, plan, managed, records, k) && r in nas.records
    ensures r.description !in DescsUpTo(plan, k) ==> r in nas0.records
    ensures forall i | 0 <= i < k && plan.hosts[i].desc == r.description :: r.uuid == records[i].uuid
  {
    if r.description !in DescsUpTo(plan, k) {
      RecordBeyond(nas0.records, nas.records, DescsUpTo(plan, k), r);
    }
    AtMembers(nas.records, r.description);
    assert r in At(nas.records, r.description);
    forall i | 0 <= i < k && plan.hosts[i].desc == r.description ensures r.uuid == records[i].uuid {
      var at := At(nas.records, plan.hosts[i].desc);
      assert at == [at[0]];
    }
  }

  lemma RecordBeyond(rs0: seq<ProxyEntry>, rs: seq<ProxyEntry>, ds: set<string>, r: ProxyEntry)
    requires Drop(rs, ds) == Drop(rs0, ds) && r in rs && r.description !in ds
    ensures r in rs0
  {
    DropMembers(rs, ds);
    DropMembers(rs0, ds);
    assert r in Drop(rs, ds);
  }

  /** A record halfway has the UUID of one that was there at its description, or a fresh
      one. */
  lemma OldOrFresh(nas0: Nas, nas: Nas, plan: Plan, managed: seq<ManagedRecord>, records: seq<ManagedRecord>,
      k: nat, r: ProxyEntry, m: ManagedRecord)
    requires k <= |plan.hosts| && Halfway(nas0, nas, plan, managed, records, k) && r in nas.records
    requires m in managed && r.uuid == m.uuid
    ensures r.description == m.description
  {
    RecordHalfway(nas0, nas, plan, managed, records, k, r);
    if r.description in DescsUpTo(plan, k) {
      var i :| 0 <= i < k && plan.hosts[i].desc == r.description;
      var at := At(nas0.records, r.description);
      AtMembers(nas0.records, r.description);
      assert Placed(nas0.records, nas0.next, r.description, records[i].uuid);
      assert at != [];
      assert at[0] in at;
    }
  }

  /** The entry of a tracked record is right halfway, unless its host was disturbed. */
  lemma TrackedHalfway(nas0: Nas, nas: Nas, plan: Plan, managed: seq<ManagedRecord>, records: seq<ManagedRecord>,
      k: nat, m: ManagedRecord)
    requires k <= |plan.hosts| && Halfway(nas0, nas, plan, managed, records, k) && m in managed
    requires UndisturbedUpTo(nas0, plan, managed, k)
    ensures RowRight(nas, m)
    ensures forall r | r in nas.records && r.description == m.description :: r.uuid == m.uuid
  {
    var d := m.description;
    PrevOfTracked(nas0, managed, m);
    if d in DescsUpTo(plan, k) {
      var i :| 0 <= i < k && plan.hosts[i].desc == d;
      assert Undisturbed(nas0, plan, managed, i);
      TrackedBehind(nas0, nas, plan, managed, records, k, i, m);
      forall r | r in nas.records && r.description == d ensures r.uuid == m.uuid {
        RecordHalfway(nas0, nas, plan, managed, records, k, r);
      }
    } else {
      if d in Descs(plan) {
        var i :| 0 <= i < |plan.hosts| && plan.hosts[i].desc == d;
        assert k <= i;
      }
      forall r | r in nas.records && r.description == d ensures r.uuid == m.uuid {
        RecordHalfway(nas0, nas, plan, managed, records, k, r);
      }
    }
  }

  lemma UndisturbedIsBooked(nas0: Nas, nas: Nas, plan: Plan, managed: seq<ManagedRecord>, records: seq<ManagedRecord>,
      k: nat)
    requires k <= |plan.hosts| && Halfway(nas0, nas, plan, managed, records, k)
    requires UndisturbedUpTo(nas0, plan, managed, k)
    ensures Booked(nas, managed)
  {
    forall m | m in managed ensures NO_UUID < m.uuid < nas.next && CertsOf(nas.services, m.uuid) == RowsFor(m.certID) {
      TrackedHalfway(nas0, nas, plan, managed, records, k, m);
    }
    forall m, r | m in managed && r in nas.records
      ensures r.description == m.description <==> r.uuid == m.uuid
    {
      TrackedHalfway(nas0, nas, plan, managed, records, k, m);
      if r.uuid == m.uuid {
        OldOrFresh(nas0, nas, plan, managed, records, k, r, m);
      }
    }
  }

  lemma UndisturbedHasNoStrays(nas0: Nas, nas: Nas, plan: Plan, managed: seq<ManagedRecord>,
      records: seq<ManagedRecord>,
      k: nat, mine: set<string>)
    requires k <= |plan.hosts| && Halfway(nas0, nas, plan, managed, records, k)
    requires UndisturbedUpTo(nas0, plan, managed, k) && NoStrayRows(nas0, managed, mine)
    ensures NoStrayRows(nas, managed, mine)
  {
    forall r | r in nas.records && r.description in mine && PrevOf(managed, r.description).None?
      ensures CertsOf(nas.services, r.uuid) == []
    {
      var d := r.description;
      RecordHalfway(nas0, nas, plan, managed, records, k, r);
      if d in DescsUpTo(plan, k) {
        var i :| 0 <= i < k && plan.hosts[i].desc == d;
        assert Undisturbed(nas0, plan, managed, i);
        UntrackedBehind(nas0, nas, plan, managed, records, k, i);
      } else if d in Descs(plan) {
        var i :| 0 <= i < |plan.hosts| && plan.hosts[i].desc == d;
        assert k <= i;
      }
    }
  }

  lemma OrderIsUndisturbed(nas0: Nas, nas: Nas, plan: Plan, managed: seq<ManagedRecord>, records: seq<ManagedRecord>,
      k: nat, mine: set<string>, i: nat)
    requires i < k <= |plan.hosts| && Halfway(nas0, nas, plan, managed, records, k) && Descs(plan) <= mine
    requires Booked(nas, managed) && NoStrayRows(nas, managed, mine)
    ensures Undisturbed(nas0, plan, managed, i)
  {
    var d := plan.hosts[i].desc;
    var at := At(nas.records, d);
    AtMembers(nas.records, d);
    assert at[0] in at && at[0].uuid == records[i].uuid;
    var prev := PrevOf(managed, d);
    PrevOfMember(managed, d);
    if prev.Some? {
      TrackedBehind(nas0, nas, plan, managed, records, k, i, prev.value);
    } else {
      assert d in mine;
      UntrackedBehind(nas0, nas, plan, managed, records, k, i);
    }
  }

  /** Halfway, status and rows agree exactly when no host was disturbed. */
  lemma HalfwayInOrder(nas0: Nas, nas: Nas, plan: Plan, managed: seq<ManagedRecord>, records: seq<ManagedRecord>,
      k: nat, mine: set<string>)
    requires k <= |plan.hosts| && Halfway(nas0, nas, plan, managed, records, k) && Descs(plan) <= mine
    requires NoStrayRows(nas0, managed, mine)
    ensures Booked(nas, managed) && NoStrayRows(nas, managed, mine) <==> UndisturbedUpTo(nas0, plan, managed, k)
  {
    if UndisturbedUpTo(nas0, plan, managed, k) {
      UndisturbedIsBooked(nas0, nas, plan, managed, records, k);
      UndisturbedHasNoStrays(nas0, nas, plan, managed, records, k, mine);
    }
    if Booked(nas, managed) && NoStrayRows(nas, managed, mine) {
      forall i | 0 <= i < k ensures Undisturbed(nas0, plan, managed, i) {
        OrderIsUndisturbed(nas0, nas, plan, managed, records, k, mine, i);
      }
    }
  }

  lemma ReachesHalfway(w: World, plan: Plan, managed: seq<ManagedRecord>, k: nat)
    requires k <= |plan.hosts| && LedgerReady(w, plan, managed)
    requires SyncHosts(w, plan, managed, k).halt == Running
    ensures
      var s := SyncHosts(w, plan, managed, k);
      Halfway(w.nas, s.w.nas, plan, managed, s.records, k)
  {
    DistinctIsWellNamed(plan);
    BookedHosts(w, plan, managed, k);
    HostsOnTrack(w, plan, managed, k);
    HostsNoted(w, plan, managed, k);
  }

  lemma UndisturbedAfterSweep(nas: Nas, plan: Plan, status: Status, i: nat)
    requires i < |plan.hosts|
    ensures
      var swept := nas.(records := Drop(nas.records, AllStale(status, plan)));
      Undisturbed(swept, plan, status.managed, i) == Undisturbed(nas, plan, status.managed, i)
  {
    AtDrop(nas.records, AllStale(status, plan), plan.hosts[i].desc);
  }

  lemma SweepLeavesNoStrays(nas: Nas, managed: seq<ManagedRecord>, mine: set<string>, stale: set<string>)
    requires NoStrayRows(nas, managed, mine)
    ensures NoStrayRows(nas.(records := Drop(nas.records, stale)), managed, mine)
  {
    DropMembers(nas.records, stale);
  }

  /** The hosts of a healthy pass that stop leave the books in order exactly when none they
      brought in place was disturbed. */
  lemma StoppedHostsKeepOrder(w: World, plan: Plan, managed: seq<ManagedRecord>, mine: set<string>)
    requires LedgerReady(w, plan, managed) && Descs(plan) <= mine && NoStrayRows(w.nas, managed, mine)
    requires SyncHosts(w, plan, managed, |plan.hosts|).halt != Running
    ensures
      var nas := SyncHosts(w, plan, managed, |plan.hosts|).w.nas;
      Booked(nas, managed) && NoStrayRows(nas, managed, mine) <==>
        forall i | 0 <= i < |plan.hosts| && ClearTo(w.nas.records, plan, i) :: Undisturbed(w.nas, plan, managed, i)
  {
    DistinctIsWellNamed(plan);
    var k := StopsAt(w, plan, managed);
    ReachesHalfway(w, plan, managed, k);
    var s := SyncHosts(w, plan, managed, k);
    HalfwayInOrder(w.nas, s.w.nas, plan, managed, s.records, k, mine);
    forall i | 0 <= i < |plan.hosts| ensures ClearTo(w.nas.records, plan, i) <==> i < k {
      assert i >= k ==> !Clear(w.nas.records, plan, k);
    }
  }

  /** A healthy pass that stops leaves status and rows in agreement exactly when it has
      disturbed no host it brought in place. */
  lemma StoppedPassKeepsOrder(w: World, plan: Plan, status: Status, mine: set<string>)
    requires LedgerReady(w, plan, status.managed) && Descs(plan) <= mine && NoStrayRows(w.nas, status.managed, mine)
    requires RunPlan(w, plan, status).halt != Running
    ensures
      var p := RunPlan(w, plan, status);
      KeepsOrder(w.nas, plan, status) <==>
        Booked(p.w.nas, status.managed) && NoStrayRows(p.w.nas, status.managed, mine)
  {
    var managed, stale := status.managed, AllStale(status, plan);
    DistinctIsWellNamed(plan);
    HealthyPass(w, plan, status);
    SweepHealthy(w, managed, Descs(plan), |managed|);
    DropKeepsSound(w.nas, stale);
    SweepKeepsBooked(w.nas, managed, plan, stale);
    SweepLeavesNoStrays(w.nas, managed, mine, stale);
    var v := Sweep(w, managed, Descs(plan), |managed|).w;
    StoppedHostsKeepOrder(v, plan, managed, mine);
    forall i | 0 <= i < |plan.hosts|
      ensures Undisturbed(v.nas, plan, managed, i) == Undisturbed(w.nas, plan, managed, i)
    {
      UndisturbedAfterSweep(w.nas, plan, status, i);
    }
  }

  // ------------------------------------------------------------- whole runs

  /** One rule's certificate life: passes for whatever the spec asks at the time, and
      records deleted by others in between. */
  datatype Turn = PassFor(plan: Plan) | Drift(ds: set<string>)

  datatype Books = Books(w: World, status: Status)

  function Next(b: Books, t: Turn): Books {
    match t
    case PassFor(plan) =>
      var p := RunPlan(b.w, plan, b.status);
      Books(p.w, p.status)
    case Drift(ds) => b.(w := b.w.(nas := b.w.nas.(records := Drop(b.w.nas.records, ds))))
  }

  /** A pass lists no host twice and finds a certificate for each; it finishes and assigns
      one where a certified record is missing, or it stops before disturbing anything. */
  ghost predicate Fair(b: Books, t: Turn, mine: set<string>) {
    t.PassFor? ==>
      && Distinct(t.plan) && Descs(t.plan) <= mine
      && CertsForAll(b.w.nas, t.plan)
      && KeepsOrder(b.w.nas, t.plan, b.status)
  }

  ghost predicate InOrder(b: Books, mine: set<string>) {
    && Sound(b.w.nas) && b.w.script == []
    && Booked(b.w.nas, b.status.managed) && NoStrayRows(b.w.nas, b.status.managed, mine)
  }

  function Run(b: Books, turns: seq<Turn>): Books {
    if turns == [] then b else Next(Run(b, turns[..|turns| - 1]), turns[|turns| - 1])
  }

  ghost predicate FairRun(b: Books, turns: seq<Turn>, mine: set<string>) {
    turns == [] ||
    (FairRun(b, turns[..|turns| - 1], mine) && Fair(Run(b, turns[..|turns| - 1]), turns[|turns| - 1], mine))
  }

  lemma TurnKeepsOrder(b: Books, t: Turn, mine: set<string>)
    requires InOrder(b, mine) && Fair(b, t, mine)
    ensures InOrder(Next(b, t), mine)
  {
    match t
    case PassFor(plan) => PassKeepsOrderExactly(b, plan, mine);
    case Drift(ds) =>
      DropMembers(b.w.nas.records, ds);
      DropKeepsSound(b.w.nas, ds);
  }

  /** Any healthy pass, whether it finishes or stops at an obstructed host, leaves status and
      rows in agreement exactly when `KeepsOrder` holds at its start. */
  lemma PassKeepsOrderExactly(b: Books, plan: Plan, mine: set<string>)
    requires InOrder(b, mine) && Distinct(plan) && Descs(plan) <= mine && CertsForAll(b.w.nas, plan)
    ensures InOrder(Next(b, PassFor(plan)), mine) <==> KeepsOrder(b.w.nas, plan, b.status)
  {
    DistinctIsWellNamed(plan);
    HealthyPass(b.w, plan, b.status);
    var failed := PassEffect(b.w, plan, b.status);
    if RunPlan(b.w, plan, b.status).halt == Running {
      PassKeepsBooked(b.w, plan, b.status);
      PassLeavesNoStrays(b.w, plan, b.status, mine);
    } else {
      StoppedPassKeepsOrder(b.w, plan, b.status, mine);
    }
  }

  /** Through any such run every tracked record keeps exactly the row its status
      names, also when it was deleted by others and came back under a new UUID. */
  lemma {:induction false} BooksStayInOrder(b: Books, turns: seq<Turn>, mine: set<string>)
    requires InOrder(b, mine) && FairRun(b, turns, mine)
    ensures InOrder(Run(b, turns), mine)
  {
    if turns != [] {
      BooksStayInOrder(b, turns[..|turns| - 1], mine);
      TurnKeepsOrder(Run(b, turns[..|turns| - 1]), turns[|turns| - 1], mine);
    }
  }

  // --------------------------------------------------------------- deletion

  /** Deletion knows a host name for the record, so it clears its certificate row. */
  predicate Hosted(managed: seq<ManagedRecord>, r: ProxyEntry) {
    HostOf(managed, r.uuid) != "" || r.frontend.fqdn != ""
  }

  ghost predicate Cleared(rs: seq<ProxyEntry>, managed: seq<ManagedRecord>, ds: set<string>, u: Uuid) {
    exists r | r in rs :: r.uuid == u && r.description in ds && Hosted(managed, r)
  }

  /** From `nas` to `nas'` exactly the rows of the records of `ds` are gone. */
  ghost predicate RowsCleared(nas: Nas, nas': Nas, managed: seq<ManagedRecord>, ds: set<string>) {
    forall u: Uuid ::
      CertsOf(nas'.services, u) == if Cleared(nas.records, managed, ds, u) then [] else CertsOf(nas.services, u)
  }

  lemma EraseOneRows(w: World, managed: seq<ManagedRecord>, d: string)
    requires Sound(w.nas) && w.script == []
    ensures RowsCleared(w.nas, EraseOne(w, managed, d).w.nas, managed, {d})
  {
    GetHealthy(w, d);
    AtMembers(w.nas.records, d);
    var g := GetProxyRecord(w, d);
    var at := At(w.nas.records, d);
    if at == [] {
      DeleteHealthy(g.w, d);
    } else {
      assert at == [at[0]] && at[0] in at;
      var r := at[0];
      var tracked := HostOf(managed, r.uuid);
      UnassignHealthy(g.w, r.uuid, if tracked == "" then r.frontend.fqdn else tracked);
      ReleaseEffect(g.w, managed, r);
      ErasedNothing(g.w, Release(g.w, managed, r).w);
      DeleteHealthy(Release(g.w, managed, r).w, d);
      forall u: Uuid
        ensures CertsOf(WithoutServices(w.nas.services, r.uuid), u) ==
            if u == r.uuid then [] else CertsOf(w.nas.services, u)
      {
        RowsWithout(w.nas.services, r.uuid, u);
      }
    }
  }

  lemma RowsClearedStep(nas: Nas, nas1: Nas, nas2: Nas, managed: seq<ManagedRecord>, ds: set<string>, d: string)
    requires RowsCleared(nas, nas1, managed, ds) && nas1.records == Drop(nas.records, ds)
    requires RowsCleared(nas1, nas2, managed, {d})
    ensures RowsCleared(nas, nas2, managed, ds + {d})
  {
    DropMembers(nas.records, ds);
    forall u: Uuid
      ensures Cleared(nas.records, managed, ds + {d}, u)
        <==> Cleared(nas.records, managed, ds, u) || Cleared(nas1.records, managed, {d}, u)
    {
    }
  }

  /** What a healthy delete pass has done after the descriptions `ds`. */
  ghost predicate ErasedRows(nas: Nas, e: Did<()>, managed: seq<ManagedRecord>, ds: set<string>) {
    && e.res.Ok? && e.w.script == [] && Sound(e.w.nas)
    && e.w.nas.records == Drop(nas.records, ds)
    && RowsCleared(nas, e.w.nas, managed, ds)
  }

  lemma EraseRowsStep(nas: Nas, e: Did<()>, managed: seq<ManagedRecord>, ds: set<string>, d: string)
    requires ErasedRows(nas, e, managed, ds)
    ensures ErasedRows(nas, EraseOne(e.w, managed, d), managed, ds + {d})
  {
    EraseOneHealthy(e.w, managed, d);
    var gone := EraseOneEffect(e.w, managed, d);
    DropDrop(nas.records, ds, {d});
    EraseOneRows(e.w, managed, d);
    RowsClearedStep(nas, e.w.nas, EraseOne(e.w, managed, d).w.nas, managed, ds, d);
  }

  lemma {:induction false} EraseRows(w: World, managed: seq<ManagedRecord>, descs: seq<string>, k: nat)
    requires Sound(w.nas) && w.script == [] && k <= |descs|
    ensures ErasedRows(w.nas, Erase(w, managed, descs, k), managed, SetOf(descs[..k]))
  {
    if k == 0 {
      assert SetOf(descs[..0]) == {};
      DropNothing(w.nas.records, {});
    } else {
      EraseRows(w, managed, descs, k - 1);
      EraseRowsStep(w.nas, Erase(w, managed, descs, k - 1), managed, SetOf(descs[..k - 1]), descs[k - 1]);
      SetOfNext(descs, k);
    }
  }

  lemma SetOfNext(descs: seq<string>, k: nat)
    requires 0 < k <= |descs|
    ensures SetOf(descs[..k]) == SetOf(descs[..k - 1]) + {descs[k - 1]}
  {
    assert descs[..k] == descs[..k - 1] + [descs[k - 1]];
  }

  /** A healthy deletion removes the certificate rows of exactly the records it deletes,
      those without any known host name excepted; a row left behind by a record that
      others deleted stays. */
  lemma DeletionClearsRows(w: World, rule: Rule)
    requires Sound(w.nas) && w.script == []
    ensures
      var w' := DeletePass(w, rule).w;
      forall u: Uuid ::
        CertsOf(w'.nas.services, u)
          == if Cleared(w.nas.records, rule.status.managed, SetOf(ManagedDescriptions(rule)), u) then []
             else CertsOf(w.nas.services, u)
  {
    var descs := ManagedDescriptions(rule);
    assert descs[..|descs|] == descs;
    EraseRows(w, rule.status.managed, descs, |descs|);
  }

  /** After a run in order, deletion leaves no row for any tracked record still in DSM. */
  lemma DeletionAfterRun(b: Books, turns: seq<Turn>, mine: set<string>, rule: Rule, m: ManagedRecord)
    requires InOrder(b, mine) && FairRun(b, turns, mine)
    requires rule.status == Run(b, turns).status && m in rule.status.managed
    requires At(Run(b, turns).w.nas.records, m.description) != [] && HostOf(rule.status.managed, m.uuid) != ""
    ensures CertsOf(DeletePass(Run(b, turns).w, rule).w.nas.services, m.uuid) == []
  {
    BooksStayInOrder(b, turns, mine);
    var w := Run(b, turns).w;
    DeletionClearsRows(w, rule);
    var at := At(w.nas.records, m.description);
    AtMembers(w.nas.records, m.description);
    assert at[0] in at;
    var descs := ManagedDescriptions(rule);
    var i :| 0 <= i < |rule.status.managed| && rule.status.managed[i] == m;
    assert descs[i] == m.description;
    assert Cleared(w.nas.records, rule.status.managed, SetOf(descs), m.uuid);
  }
}
