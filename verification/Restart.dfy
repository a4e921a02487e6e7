/** Certificate rows of a deletion on any network, and what a deletion cut off and run again
    makes good. */
module Restart {
  import opened Util
  import opened Dsm
  import opened Client
  import opened Proxy
  import opened CertificateService
  import opened Rules
  import opened Finalizer
  import opened Ledger
  import opened Books

  /** Each row is as it was, or gone with a record of `ds` for which a host name is known. */
  ghost predicate RowsFall(nas: Nas, nas': Nas, managed: seq<ManagedRecord>, ds: set<string>) {
    forall u: Uuid ::
      || CertsOf(nas'.services, u) == CertsOf(nas.services, u)
      || (Cleared(nas.records, managed, ds, u) && CertsOf(nas'.services, u) == [])
  }

  lemma RowsFallTrans(a: Nas, b: Nas, c: Nas, managed: seq<ManagedRecord>, ds: set<string>, d: string,
      gone: set<string>)
    requires RowsFall(a, b, managed, ds) && RowsFall(b, c, managed, {d}) && b.records == Drop(a.records, gone)
    ensures RowsFall(a, c, managed, ds + {d})
  {
    DropMembers(a.records, gone);
  }

  lemma UnassignFalls(w: World, uuid: Uuid, hostname: string, u: Uuid)
    ensures
      var after := CertsOf(UnassignCertificate(w, uuid, hostname).w.nas.services, u);
      after == CertsOf(w.nas.services, u) || (u == uuid && after == [])
  {
    PostEffect(w, SetCert(uuid, hostname, "", ""));
    RowsWithout(w.nas.services, uuid, u);
  }

  lemma ReleaseRows(w: World, managed: seq<ManagedRecord>, r: ProxyEntry)
    requires r in w.nas.records
    ensures RowsFall(w.nas, Release(w, managed, r).w.nas, managed, {r.description})
  {
    var tracked := HostOf(managed, r.uuid);
    var hostname := if tracked == "" then r.frontend.fqdn else tracked;
    if hostname != "" {
      forall u: Uuid
        ensures
          var after := CertsOf(UnassignCertificate(w, r.uuid, hostname).w.nas.services, u);
          after == CertsOf(w.nas.services, u) || (u == r.uuid && after == [])
      {
        UnassignFalls(w, r.uuid, hostname, u);
      }
      assert Hosted(managed, r);
    }
  }

  lemma EraseOneFalls(w: World, managed: seq<ManagedRecord>, d: string)
    requires Sound(w.nas)
    ensures RowsFall(w.nas, EraseOne(w, managed, d).w.nas, managed, {d})
  {
    GetEffect(w, d);
    AtMembers(w.nas.records, d);
    var g := GetProxyRecord(w, d);
    if g.res.Ok? {
      var rel := if g.res.value.Some? then Release(g.w, managed, g.res.value.value) else Did(g.w, Ok(()));
      if g.res.value.Some? {
        var r := g.res.value.value;
        assert r in At(w.nas.records, d);
        ReleaseRows(g.w, managed, r);
        ReleaseEffect(g.w, managed, r);
      }
      if rel.res.Ok? {
        DeleteEffect(rel.w, d);
      }
    }
  }

  lemma NextFalls(w: World, e: Did<()>, managed: seq<ManagedRecord>, ds: set<string>, d: string, gone: set<string>)
    requires Erased(w, e.w, gone) && RowsFall(w.nas, e.w.nas, managed, ds)
    ensures RowsFall(w.nas, (if e.res.Ok? then EraseOne(e.w, managed, d) else e).w.nas, managed, ds + {d})
  {
    if e.res.Ok? {
      EraseOneFalls(e.w, managed, d);
      RowsFallTrans(w.nas, e.w.nas, EraseOne(e.w, managed, d).w.nas, managed, ds, d, gone);
    }
  }

  lemma {:induction false} EraseFalls(w: World, managed: seq<ManagedRecord>, descs: seq<string>, k: nat)
    requires Sound(w.nas) && k <= |descs|
    ensures RowsFall(w.nas, Erase(w, managed, descs, k).w.nas, managed, SetOf(descs[..k]))
  {
    if k > 0 {
      EraseFalls(w, managed, descs, k - 1);
      var gone := EraseEffect(w, managed, descs, k - 1);
      NextFalls(w, Erase(w, managed, descs, k - 1), managed, SetOf(descs[..k - 1]), descs[k - 1], gone);
      SetOfNext(descs, k);
    }
  }

  /** A delete pass on any network, cut off anywhere: each certificate row is as it was, or
      gone, and then only with a record that deletion goes by and knows a host name for. */
  lemma DeletionRows(w: World, rule: Rule, u: Uuid)
    requires Sound(w.nas)
    ensures
      var w' := DeletePass(w, rule).w;
      || CertsOf(w'.nas.services, u) == CertsOf(w.nas.services, u)
      || (Cleared(w.nas.records, rule.status.managed, SetOf(ManagedDescriptions(rule)), u)
          && CertsOf(w'.nas.services, u) == [])
  {
    var descs := ManagedDescriptions(rule);
    assert descs[..|descs|] == descs;
    EraseFalls(w, rule.status.managed, descs, |descs|);
  }

  // ------------------------------------------------------------ cut off, run again

  /** If deletion is to clear the row and its record is gone already, the row is gone as well. */
  ghost predicate NotLeft(nas: Nas, cut: Nas, managed: seq<ManagedRecord>, ds: set<string>, u: Uuid) {
    Cleared(nas.records, managed, ds, u) && !Cleared(cut.records, managed, ds, u) ==> CertsOf(cut.services, u) == []
  }

  ghost predicate NoneLeftBehind(nas: Nas, cut: Nas, managed: seq<ManagedRecord>, ds: set<string>) {
    forall u: Uuid :: NotLeft(nas, cut, managed, ds, u)
  }

  /** A delete pass cut off by any network and run again on a healthy one leaves the rows an
      uninterrupted pass would have left, exactly when the cut one left no row behind of a
      record it deleted. */
  lemma RestartRowsExactly(w: World, rule: Rule)
    requires Sound(w.nas)
    ensures
      var managed, ds := rule.status.managed, SetOf(ManagedDescriptions(rule));
      var cut := DeletePass(w, rule);
      var again := DeletePass(cut.w.(script := []), rule);
      var whole := DeletePass(w.(script := []), rule);
      (forall u: Uuid :: CertsOf(again.w.nas.services, u) == CertsOf(whole.w.nas.services, u)) <==>
        NoneLeftBehind(w.nas, cut.w.nas, managed, ds)
  {
    var managed, ds := rule.status.managed, SetOf(ManagedDescriptions(rule));
    var cut := DeletePass(w, rule);
    var again := DeletePass(cut.w.(script := []), rule).w.nas;
    var whole := DeletePass(w.(script := []), rule).w.nas;
    forall u: Uuid
      ensures CertsOf(again.services, u) == CertsOf(whole.services, u) <==> NotLeft(w.nas, cut.w.nas, managed, ds, u)
    {
      RestartRow(w, rule, u);
    }
    if NoneLeftBehind(w.nas, cut.w.nas, managed, ds) {
      forall u: Uuid ensures CertsOf(again.services, u) == CertsOf(whole.services, u) {
        assert NotLeft(w.nas, cut.w.nas, managed, ds, u);
      }
    } else {
      var u: Uuid :| !NotLeft(w.nas, cut.w.nas, managed, ds, u);
      assert CertsOf(again.services, u) != CertsOf(whole.services, u);
    }
  }

  lemma RestartRow(w: World, rule: Rule, u: Uuid)
    requires Sound(w.nas)
    ensures
      var cut := DeletePass(w, rule);
      CertsOf(DeletePass(cut.w.(script := []), rule).w.nas.services, u)
          == CertsOf(DeletePass(w.(script := []), rule).w.nas.services, u) <==>
        NotLeft(w.nas, cut.w.nas, rule.status.managed, SetOf(ManagedDescriptions(rule)), u)
  {
    var managed, ds := rule.status.managed, SetOf(ManagedDescriptions(rule));
    var cut := DeletePass(w, rule);
    var gone := DeletePassEffect(w, rule);
    DeletionClearsRows(cut.w.(script := []), rule);
    DeletionClearsRows(w.(script := []), rule);
    DeletionRows(w, rule, u);
    if Cleared(cut.w.nas.records, managed, ds, u) {
      ClearedBefore(w.nas.records, gone, managed, ds, u);
    }
  }

  lemma ClearedBefore(rs: seq<ProxyEntry>, gone: set<string>, managed: seq<ManagedRecord>, ds: set<string>, u: Uuid)
    requires Cleared(Drop(rs, gone), managed, ds, u)
    ensures Cleared(rs, managed, ds, u)
  {
    DropMembers(rs, gone);
  }

  /** It does leave one behind: DSM refuses to unassign, which is not fatal, and then deletes
      the record. The deletion has succeeded, and no later one will clear the row. */
  lemma RefusedUnassign(w: World, rule: Rule, r: ProxyEntry, cert: string, code: int)
    requires Sound(w.nas) && w.nas.records == [r] && w.nas.services == [ServiceEntry(r.uuid, cert)]
    requires rule.status.managed == [ManagedRecord(r.description, r.uuid, r.frontend.fqdn, cert)]
    requires r.frontend.fqdn != "" && code != ERR_SESSION
    requires w.script == [HEALTHY, HEALTHY.(fate := Refused(code))]
    ensures
      var cut := DeletePass(w, rule);
      && cut.res.Ok? && cut.w.nas.records == []
      && CertsOf(DeletePass(cut.w.(script := []), rule).w.nas.services, r.uuid) == [cert]
      && CertsOf(DeletePass(w.(script := []), rule).w.nas.services, r.uuid) == []
  {
    var managed, d := rule.status.managed, r.description;
    RefusedErase(w, managed, r, code);
    assert ManagedDescriptions(rule) == [d];
    assert DeletePass(w, rule) == Erase(w, managed, [d], 1) == EraseOne(w, managed, d);
    OnlyRow(r.uuid, cert);
    var cut := DeletePass(w, rule);
    DeletionClearsRows(cut.w.(script := []), rule);
    DeletionClearsRows(w.(script := []), rule);
    assert r in w.nas.records && d in SetOf([d]) && Hosted(managed, r);
    assert Cleared(w.nas.records, managed, SetOf([d]), r.uuid);
  }

  lemma OnlyRow(u: Uuid, cert: string)
    ensures CertsOf([ServiceEntry(u, cert)], u) == [cert]
  {
    assert CertsOf([ServiceEntry(u, cert)][1..], u) == [];
  }

  lemma RefusedErase(w: World, managed: seq<ManagedRecord>, r: ProxyEntry, code: int)
    requires Sound(w.nas) && w.nas.records == [r] && r.frontend.fqdn != "" && code != ERR_SESSION
    requires w.script == [HEALTHY, HEALTHY.(fate := Refused(code))]
    ensures
      var e := EraseOne(w, managed, r.description);
      && e.res.Ok? && e.w.nas == w.nas.(records := [])
  {
    var d := r.description;
    PostFirst(w, List);
    var g := GetProxyRecord(w, d);
    assert g.w.nas == w.nas && g.w.script == [HEALTHY.(fate := Refused(code))] && g.res == Ok(Some(r));
    var tracked := HostOf(managed, r.uuid);
    PostFirst(g.w, SetCert(r.uuid, if tracked == "" then r.frontend.fqdn else tracked, "", ""));
    var rel := Release(g.w, managed, r);
    assert rel.w.nas == w.nas && rel.w.script == [] && rel.res.Ok?;
    DeleteHealthy(rel.w, d);
    OnlyRecord(w.nas.records, r);
  }

  lemma OnlyRecord(rs: seq<ProxyEntry>, r: ProxyEntry)
    requires rs == [r]
    ensures Drop(rs, {r.description}) == []
  {
    assert rs[1..] == [];
  }
}
