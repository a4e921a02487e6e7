/** Deleting a rule: every tracked record leaves DSM before the finalizer goes. */
module Finalizer {
  import opened Util
  import opened Dsm
  import opened Client
  import opened Proxy
  import opened CertificateService
  import opened Rules

  function DescriptionsOf(managed: seq<ManagedRecord>): (r: seq<string>)
    ensures |r| == |managed|
    ensures forall i | 0 <= i < |managed| :: r[i] == managed[i].description
  {
    seq(|managed|, i requires 0 <= i < |managed| => managed[i].description)
  }

  /** What deletion goes by: the status, or the primary description when it is empty. */
  function ManagedDescriptions(rule: Rule): (r: seq<string>)
    ensures r != []
  {
    if rule.status.managed != [] then DescriptionsOf(rule.status.managed) else [DescriptionFor(rule)]
  }

  /** The host name last tracked for a UUID, "" if none. */
  function HostOf(managed: seq<ManagedRecord>, uuid: Uuid): string {
    if managed == [] then ""
    else
      var m := managed[|managed| - 1];
      if m.uuid != NO_UUID && m.uuid == uuid then m.sourceHost
      else HostOf(managed[..|managed| - 1], uuid)
  }

  /** Removes the certificate row of a record about to go; failures do not matter. */
  function Release(w: World, managed: seq<ManagedRecord>, existing: ProxyEntry): Did<()> {
    var tracked := HostOf(managed, existing.uuid);
    var hostname := if tracked == "" then existing.frontend.fqdn else tracked;
    if hostname == "" then Did(w, Ok(()))
    else
      var u := UnassignCertificate(w, existing.uuid, hostname);
      Did(u.w, if u.res.Stopped? then Stopped else Ok(()))
  }

  function EraseOne(w: World, managed: seq<ManagedRecord>, d: string): Did<()> {
    var g := GetProxyRecord(w, d);
    match g.res
    case Err(f) => Did(g.w, Err(f))
    case Stopped => Did(g.w, Stopped)
    case Ok(existing) =>
      var rel := if existing.Some? then Release(g.w, managed, existing.value) else Did(g.w, Ok(()));
      if !rel.res.Ok? then rel
      else
        var r := DeleteProxyRecord(rel.w, d);
        match r.res
        case Ok(_) => Did(r.w, Ok(()))
        case Err(f) => Did(r.w, Err(f))
        case Stopped => Did(r.w, Stopped)
  }

  function Erase(w: World, managed: seq<ManagedRecord>, descs: seq<string>, k: nat): Did<()>
    requires k <= |descs|
  {
    if k == 0 then Did(w, Ok(()))
    else
      var e := Erase(w, managed, descs, k - 1);
      if !e.res.Ok? then e else EraseOne(e.w, managed, descs[k - 1])
  }

  function DeletePass(w: World, rule: Rule): Did<()> {
    var descs := ManagedDescriptions(rule);
    Erase(w, rule.status.managed, descs, |descs|)
  }

  // ------------------------------------------------------------- any network

  ghost predicate EraseExchange(x: Exchange) {
    IsRead(x.req) || x.req.Delete? || x.req.SetCert?
  }

  /** DSM without the records of `gone`, and apart from certificate rows unchanged. */
  ghost predicate Erased(w: World, w': World, gone: set<string>) {
    && Sound(w'.nas)
    && w'.nas == w.nas.(records := Drop(w.nas.records, gone), services := w'.nas.services)
    && LogGrows(w.log, w'.log, x => EraseExchange(x))
  }

  lemma ErasedTrans(a: World, b: World, c: World, g1: set<string>, g2: set<string>)
    requires Erased(a, b, g1) && Erased(b, c, g2)
    ensures Erased(a, c, g1 + g2)
  {
    DropDrop(a.nas.records, g1, g2);
    LogGrowsTrans(a.log, b.log, c.log, x => EraseExchange(x));
  }

  lemma ErasedNothing(w: World, w': World)
    requires Sound(w.nas) && OnlyCerts(w, w')
    ensures Erased(w, w', {})
  {
    DropNothing(w.nas.records, {});
    LogWeaken(w.log, w'.log, x => CertStep(w.nas.records, x), x => EraseExchange(x));
  }

  lemma ReadErases(w: World, w': World)
    requires Sound(w.nas) && OnlyRead(w, w')
    ensures Erased(w, w', {})
  {
    DropNothing(w.nas.records, {});
    LogWeaken(w.log, w'.log, x => Read(w.nas.records, x), x => EraseExchange(x));
  }

  lemma ReleaseEffect(w: World, managed: seq<ManagedRecord>, existing: ProxyEntry)
    ensures
      var r := Release(w, managed, existing);
      OnlyCerts(w, r.w) && !r.res.Err?
  {
    var tracked := HostOf(managed, existing.uuid);
    UnassignEffect(w, existing.uuid, if tracked == "" then existing.frontend.fqdn else tracked);
    assert OnlyCerts(w, w);
  }

  lemma DeleteErases(w: World, d: string) returns (gone: set<string>)
    requires Sound(w.nas)
    ensures
      var r := DeleteProxyRecord(w, d);
      && gone <= {d}
      && Erased(w, r.w, gone)
      && (r.res.Ok? ==> gone == {d})
  {
    DeleteEffect(w, d);
    var r := DeleteProxyRecord(w, d);
    LogWeaken(w.log, r.w.log, x => DeleteStep(w.nas.records, r.w.nas.records, x), x => EraseExchange(x));
    DropNothing(w.nas.records, {});
    gone := if r.res.Ok? || r.w.nas != w.nas then {d} else {};
  }

  lemma EraseOneEffect(w: World, managed: seq<ManagedRecord>, d: string) returns (gone: set<string>)
    requires Sound(w.nas)
    ensures
      var e := EraseOne(w, managed, d);
      && gone <= {d}
      && Erased(w, e.w, gone)
      && (e.res.Ok? ==> gone == {d})
  {
    var g := GetProxyRecord(w, d);
    GetEffect(w, d);
    ReadErases(w, g.w);
    gone := {};
    if g.res.Ok? {
      var rel := if g.res.value.Some? then Release(g.w, managed, g.res.value.value) else Did(g.w, Ok(()));
      assert OnlyCerts(g.w, g.w);
      if g.res.value.Some? {
        ReleaseEffect(g.w, managed, g.res.value.value);
      }
      ErasedNothing(g.w, rel.w);
      ErasedTrans(w, g.w, rel.w, {}, {});
      assert {} + {} == gone;
      if rel.res.Ok? {
        var more := DeleteErases(rel.w, d);
        ErasedTrans(w, rel.w, DeleteProxyRecord(rel.w, d).w, gone, more);
        gone := gone + more;
      }
    }
  }

  /** Some of the listed records are gone; success means all of them. */
  ghost predicate ErasedBy(w: World, e: Did<()>, descs: seq<string>, gone: set<string>) {
    && gone <= SetOf(descs)
    && Erased(w, e.w, gone)
    && (e.res.Ok? ==> gone == SetOf(descs))
  }

  /** A delete pass on any network, cut off anywhere: the record list loses some of the
      tracked records and nothing else; success means it has lost all of them. */
  lemma {:induction false} EraseEffect(w: World, managed: seq<ManagedRecord>, descs: seq<string>, k: nat)
    returns (gone: set<string>)
    requires Sound(w.nas) && k <= |descs|
    ensures ErasedBy(w, Erase(w, managed, descs, k), descs[..k], gone)
  {
    if k == 0 {
      gone := {};
      DropNothing(w.nas.records, {});
    } else {
      gone := EraseEffect(w, managed, descs, k - 1);
      gone := EraseNext(w, Erase(w, managed, descs, k - 1), managed, descs[..k - 1], descs[k - 1], gone);
      assert descs[..k] == descs[..k - 1] + [descs[k - 1]];
    }
  }

  lemma EraseNext(w: World, e: Did<()>, managed: seq<ManagedRecord>, descs: seq<string>, d: string, gone: set<string>)
    returns (all: set<string>)
    requires ErasedBy(w, e, descs, gone)
    ensures ErasedBy(w, if e.res.Ok? then EraseOne(e.w, managed, d) else e, descs + [d], all)
  {
    assert SetOf(descs + [d]) == SetOf(descs) + {d};
    all := gone;
    if e.res.Ok? {
      var more := EraseOneEffect(e.w, managed, d);
      ErasedTrans(w, e.w, EraseOne(e.w, managed, d).w, gone, more);
      all := gone + more;
    }
  }

  lemma DeletePassEffect(w: World, rule: Rule) returns (gone: set<string>)
    requires Sound(w.nas)
    ensures
      var p := DeletePass(w, rule);
      var descs := SetOf(ManagedDescriptions(rule));
      && gone <= descs
      && Erased(w, p.w, gone)
      && (p.res.Ok? ==> gone == descs)
  {
    var descs := ManagedDescriptions(rule);
    assert descs[..|descs|] == descs;
    gone := EraseEffect(w, rule.status.managed, descs, |descs|);
  }

  // --------------------------------------------------------- a healthy network

  lemma EraseOneHealthy(w: World, managed: seq<ManagedRecord>, d: string)
    requires Sound(w.nas) && w.script == []
    ensures
      var e := EraseOne(w, managed, d);
      e.w.script == [] && e.res.Ok?
  {
    GetHealthy(w, d);
    var g := GetProxyRecord(w, d);
    if g.res.value.Some? {
      var existing := g.res.value.value;
      var tracked := HostOf(managed, existing.uuid);
      UnassignHealthy(g.w, existing.uuid, if tracked == "" then existing.frontend.fqdn else tracked);
      ReleaseEffect(g.w, managed, existing);
      ErasedNothing(g.w, Release(g.w, managed, existing).w);
      DeleteHealthy(Release(g.w, managed, existing).w, d);
    } else {
      DeleteHealthy(g.w, d);
    }
  }

  /** A healthy delete pass that is still going. */
  ghost predicate GoingWell(e: Did<()>) {
    Sound(e.w.nas) && e.w.script == [] && e.res.Ok?
  }

  lemma EraseOneGoesWell(e: Did<()>, managed: seq<ManagedRecord>, d: string)
    requires GoingWell(e)
    ensures GoingWell(EraseOne(e.w, managed, d))
  {
    EraseOneHealthy(e.w, managed, d);
    var gone := EraseOneEffect(e.w, managed, d);
  }

  lemma {:induction false} EraseHealthy(w: World, managed: seq<ManagedRecord>, descs: seq<string>, k: nat)
    requires Sound(w.nas) && w.script == [] && k <= |descs|
    ensures GoingWell(Erase(w, managed, descs, k))
  {
    if k > 0 {
      EraseHealthy(w, managed, descs, k - 1);
      EraseOneGoesWell(Erase(w, managed, descs, k - 1), managed, descs[k - 1]);
    }
  }

  /** A healthy delete pass leaves exactly the records that are not tracked. */
  lemma DeletePassHealthy(w: World, rule: Rule)
    requires Sound(w.nas) && w.script == []
    ensures
      var p := DeletePass(w, rule);
      && p.res.Ok? && p.w.script == []
      && p.w.nas.records == Drop(w.nas.records, SetOf(ManagedDescriptions(rule)))
  {
    var descs := ManagedDescriptions(rule);
    EraseHealthy(w, rule.status.managed, descs, |descs|);
    var gone := DeletePassEffect(w, rule);
  }

  // --------------------------------------------------------- what deletion goes by

  /** The descriptions a deletion is about: those of the status; with an empty status the
      description of the spec, or namespace and name with a slash between them. */
  function ToDelete(rule: Rule): set<string> {
    if rule.status.managed != [] then set m | m in rule.status.managed :: m.description
    else if rule.spec.description != "" then {rule.spec.description}
    else {rule.namespace + "/" + rule.name}
  }

  lemma GoesByStatus(rule: Rule)
    ensures SetOf(ManagedDescriptions(rule)) == ToDelete(rule)
  {
    var descs := ManagedDescriptions(rule);
    if rule.status.managed != [] {
      forall m | m in rule.status.managed ensures m.description in descs {
        var i :| 0 <= i < |rule.status.managed| && rule.status.managed[i] == m;
        assert descs[i] == m.description;
      }
    }
  }

  /** A delete pass deletes exactly these, on any network when it succeeds, and on a healthy
      one it does. */
  lemma DeletesNamed(w: World, rule: Rule)
    requires Sound(w.nas)
    ensures DeletePass(w, rule).res.Ok? ==> DeletePass(w, rule).w.nas.records == Drop(w.nas.records, ToDelete(rule))
    ensures w.script == [] ==> DeletePass(w, rule).res.Ok? && DeletePass(w, rule).w.script == []
  {
    GoesByStatus(rule);
    var gone := DeletePassEffect(w, rule);
    if w.script == [] {
      DeletePassHealthy(w, rule);
    }
  }

  /** The host name a record's certificate row goes under: that of the last entry that tracks
      its UUID. */
  lemma {:induction false} HostOfLast(managed: seq<ManagedRecord>, u: Uuid)
    ensures (forall m | m in managed :: m.uuid != u) || u == 0 ==> HostOf(managed, u) == ""
    ensures forall i | 0 <= i < |managed| && managed[i].uuid == u != 0
        && (forall j | i < j < |managed| :: managed[j].uuid != u) ::
      HostOf(managed, u) == managed[i].sourceHost
  {
    if managed != [] {
      var n := |managed| - 1;
      HostOfLast(managed[..n], u);
      assert managed == managed[..n] + [managed[n]];
    }
  }

  /** Before its record goes, a row is asked to be removed: under the host name last tracked
      for the record, or else under its own. */
  lemma ReleaseSends(w: World, managed: seq<ManagedRecord>, r: ProxyEntry, host: string)
    requires w.script == []
    requires host == if HostOf(managed, r.uuid) != "" then HostOf(managed, r.uuid) else r.frontend.fqdn
    ensures Release(w, managed, r).res == Ok(())
    ensures Release(w, managed, r).w.log ==
      w.log + if host == "" then [] else [Exchange(SetCert(r.uuid, host, "", ""), w.nas.records)]
  {
    if host != "" {
      PostHealthy(w, SetCert(r.uuid, host, "", ""));
    }
  }

  // ----------------------------------------------------------------- restart

  /** The tracked descriptions still in DSM. */
  function Present(rs: seq<ProxyEntry>, ds: set<string>): set<string> {
    set d | d in ds && At(rs, d) != []
  }

  lemma PresentAfter(rs: seq<ProxyEntry>, ds: set<string>, gone: set<string>)
    ensures Present(Drop(rs, gone), ds) == Present(rs, ds) - gone
  {
    forall d | d in ds ensures At(Drop(rs, gone), d) == if d in gone then [] else At(rs, d) {
      AtDrop(rs, gone, d);
    }
  }

  lemma SmallerSet(a: set<string>, b: set<string>)
    requires a <= b
    ensures |a| <= |b| && (a != b ==> |a| < |b|)
  {
    var rest := b - a;
    assert b == a + rest;
  }

  /** A delete pass cut off by any network and run again on a healthy one ends with the
      record list an uninterrupted pass would have left; each attempt leaves at most as many
      tracked records as before, and fewer if it changed the record list at all. */
  lemma DeleteRestarts(w: World, rule: Rule)
    requires Sound(w.nas)
    ensures
      var descs := SetOf(ManagedDescriptions(rule));
      var cut := DeletePass(w, rule);
      var again := DeletePass(cut.w.(script := []), rule);
      var whole := DeletePass(w.(script := []), rule);
      && again.res.Ok? && whole.res.Ok?
      && again.w.nas.records == whole.w.nas.records
      && |Present(cut.w.nas.records, descs)| <= |Present(w.nas.records, descs)|
      && (cut.w.nas.records != w.nas.records ==>
            |Present(cut.w.nas.records, descs)| < |Present(w.nas.records, descs)|)
      && Present(again.w.nas.records, descs) == {}
  {
    var descs := SetOf(ManagedDescriptions(rule));
    var rs := w.nas.records;
    var cut := DeletePass(w, rule);
    var gone := DeletePassEffect(w, rule);
    DeletePassHealthy(cut.w.(script := []), rule);
    DeletePassHealthy(w.(script := []), rule);
    DropDrop(rs, gone, descs);
    assert gone + descs == descs;
    PresentAfter(rs, descs, gone);
    PresentAfter(rs, descs, descs);
    SmallerSet(Present(cut.w.nas.records, descs), Present(rs, descs));
    if Present(cut.w.nas.records, descs) == Present(rs, descs) {
      DropNothing(rs, gone);
    }
  }
}
