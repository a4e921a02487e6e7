/** Whole runs of one rule: edits, deletion, reconciles on any network, crashes, and
    whatever else happens to DSM in between. */
module Runs {
  import opened Util
  import opened Dsm
  import opened Client
  import opened Proxy
  import opened Rules
  import opened Backend
  import opened Acl
  import opened Sync
  import opened Convergence
  import opened Finalizer
  import opened Reconciler

  /** `wrote` collects the descriptions whose DSM records the rule's passes created or
      changed; `unrecorded` those among them whose pass never got its record list into
      the status. `released` is set when the finalizer has been removed. */
  datatype Sys = Sys(
    cfg: Config,
    cache: AclCache,
    w: World,
    rule: Rule,
    alive: bool,
    heldByOthers: bool,
    released: bool,
    wrote: set<string>,
    unrecorded: set<string>)

  /** A tick is one reconcile on the given network; a crash is an event of its script.
      `Elsewhere` is any change to DSM made by others. A restart loses what the operator
      holds in memory: the profile cache and the session. */
  datatype Action =
    | Edit(spec: Spec)
    | MarkDeleted
    | Tick(script: seq<Event>, cluster: Cluster, lands: bool)
    | Elsewhere(nas: Nas)
    | Restart

  /** The descriptions whose records were created or changed from `rs` to `rs'`. */
  function Changed(rs: seq<ProxyEntry>, rs': seq<ProxyEntry>): set<string> {
    set r | r in rs' && At(rs', r.description) != At(rs, r.description) :: r.description
  }

  function Tracked(rule: Rule): set<string> {
    SetOf(DescriptionsOf(rule.status.managed))
  }

  predicate Gone(rule: Rule, heldByOthers: bool) {
    rule.deleting && !rule.finalizer && !heldByOthers
  }

  function Next(s: Sys, a: Action): Sys {
    match a
    case Edit(spec) => s.(rule := s.rule.(spec := spec))
    case MarkDeleted =>
      var rule := s.rule.(deleting := true);
      s.(rule := rule, alive := s.alive && !Gone(rule, s.heldByOthers))
    case Elsewhere(nas) => s.(w := s.w.(nas := nas))
    case Restart => s.(cache := AclCache(map[], 0), w := s.w.(sid := "", synoToken := ""))
    case Tick(script, cluster, lands) =>
      if !s.alive then s
      else
        var r := Reconcile(s.cfg, cluster, s.cache, s.w.(script := script), s.rule, lands);
        var changed := Changed(s.w.nas.records, r.w.nas.records);
        Sys(s.cfg, r.cache, r.w, r.rule,
          !Gone(r.rule, s.heldByOthers),
          s.heldByOthers,
          s.released || (s.rule.finalizer && !r.rule.finalizer),
          s.wrote + changed,
          (s.unrecorded + changed) - if r.recorded then Tracked(r.rule) else {})
  }

  /** Others may do anything to DSM except restore a record this rule once wrote. */
  ghost predicate Enabled(s: Sys, a: Action) {
    a.Elsewhere? ==>
      && Sound(a.nas)
      && s.w.nas.next <= a.nas.next
      && forall d | d in s.wrote :: At(a.nas.records, d) != [] ==> At(s.w.nas.records, d) != []
  }

  function Run(s: Sys, actions: seq<Action>): Sys {
    if actions == [] then s else Next(Run(s, actions[..|actions| - 1]), actions[|actions| - 1])
  }

  ghost predicate EnabledRun(s: Sys, actions: seq<Action>) {
    actions == [] ||
    (EnabledRun(s, actions[..|actions| - 1]) &&
     Enabled(Run(s, actions[..|actions| - 1]), actions[|actions| - 1]))
  }

  ghost predicate Init(s: Sys) {
    && Sound(s.w.nas) && s.alive && !s.rule.deleting && !s.released
    && s.wrote == {} && s.unrecorded == {}
  }

  // --------------------------------------------------------------- invariant

  /** A record the rule wrote is tracked by the status, or its pass was never recorded;
      after the release only the latter is left. Nothing was ever written without the
      finalizer standing guard, up to the release. */
  ghost predicate Inv(s: Sys) {
    && Sound(s.w.nas)
    && (forall d | d in s.wrote && At(s.w.nas.records, d) != [] ::
          d in s.unrecorded || (!s.released && d in Tracked(s.rule)))
    && (s.wrote != {} ==> s.rule.finalizer || s.released)
    && (s.released ==> s.rule.deleting && !s.rule.finalizer)
  }

  lemma ChangedDescription(rs: seq<ProxyEntry>, rs': seq<ProxyEntry>, d: string)
    ensures d in Changed(rs, rs') <==> At(rs', d) != [] && At(rs', d) != At(rs, d)
  {
    AtMembers(rs', d);
    if At(rs', d) != [] && At(rs', d) != At(rs, d) {
      var r := At(rs', d)[0];
      assert r in At(rs', d);
    }
    if r :| r in rs' && r.description == d {
      assert r in At(rs', d);
    }
  }

  /** What one reconcile of an undeleted rule with its finalizer does. */
  lemma UpsertTick(cfg: Config, cluster: Cluster, cache: AclCache, w: World, rule: Rule, lands: bool)
    requires Sound(w.nas) && !rule.deleting && rule.finalizer
    ensures
      var r := Reconcile(cfg, cluster, cache, w, rule, lands);
      && Sound(r.w.nas)
      && r.rule == rule.(status := r.rule.status)
      && (!r.recorded ==> r.rule == rule)
      && (forall d | d !in WantedDescs(rule) :: KeptOrGone(w.nas.records, r.w.nas.records, d))
      && (r.recorded ==>
            && WantedDescs(rule) <= Tracked(r.rule)
            && forall d | d in Tracked(rule) && d !in Tracked(r.rule) :: At(r.w.nas.records, d) == [])
  {
    PrepareEffect(cfg, cluster, cache, w, rule);
    var prep := Prepare(cfg, cluster, cache, w, rule);
    if prep.result.Planned? {
      var failed := PassEffect(prep.w, prep.result.plan, rule.status);
      var p := RunPlan(prep.w, prep.result.plan, rule.status);
      if p.halt == Running {
        RecordedTracks(prep.result.plan, rule, p, failed);
      }
    }
  }

  lemma RecordedTracks(plan: Plan, rule: Rule, p: Pass, failed: seq<ManagedRecord>)
    requires Conserves(rule.status, plan, p, failed)
    ensures Descs(plan) <= Tracked(rule.(status := p.status))
    ensures forall d | d in Tracked(rule) && d !in Tracked(rule.(status := p.status)) :: At(p.w.nas.records, d) == []
  {
    var all := DescriptionsOf(p.status.managed);
    forall d | d in Descs(plan) ensures d in all {
      var i :| 0 <= i < |plan.hosts| && plan.hosts[i].desc == d;
      assert p.status.managed[..|plan.hosts|][i].description == d;
      assert all[i] == d;
    }
    forall m | m in failed ensures m.description in all {
      var j :| 0 <= j < |failed| && failed[j] == m;
      assert p.status.managed[|plan.hosts|..][j] == m;
      assert all[|plan.hosts| + j] == m.description;
    }
    forall d | d in Tracked(rule) && d !in Tracked(rule.(status := p.status)) ensures At(p.w.nas.records, d) == [] {
      var i :| 0 <= i < |rule.status.managed| && rule.status.managed[i].description == d;
      assert rule.status.managed[i] !in failed;
    }
  }

  /** What one reconcile of a deleted rule does; releasing means nothing that deletion
      goes by is left. */
  lemma DeleteTick(cfg: Config, cluster: Cluster, cache: AclCache, w: World, rule: Rule, lands: bool)
    requires Sound(w.nas) && rule.deleting
    ensures
      var r := Reconcile(cfg, cluster, cache, w, rule, lands);
      && Sound(r.w.nas) && !r.recorded
      && r.rule == rule.(finalizer := r.rule.finalizer)
      && (forall d :: KeptOrGone(w.nas.records, r.w.nas.records, d))
      && (rule.finalizer && !r.rule.finalizer ==>
            forall d | d in ManagedDescriptions(rule) :: At(r.w.nas.records, d) == [])
  {
    var gone := DeletePassEffect(w, rule);
    var r := Reconcile(cfg, cluster, cache, w, rule, lands);
    forall d ensures At(r.w.nas.records, d) == if d in gone then [] else At(w.nas.records, d) {
      AtDrop(w.nas.records, gone, d);
    }
  }

  lemma NextKeepsInv(s: Sys, a: Action)
    requires Inv(s) && Enabled(s, a)
    ensures Inv(Next(s, a))
  {
    if a.Tick? && s.alive {
      if s.rule.deleting {
        DeleteTickKeeps(s, a);
      } else if s.rule.finalizer {
        UpsertTickKeeps(s, a);
      } else {
        IdleTickKeeps(s, a);
      }
    }
  }

  lemma IdleTickKeeps(s: Sys, a: Action)
    requires Inv(s) && a.Tick? && s.alive && !s.rule.deleting && !s.rule.finalizer
    ensures Inv(Next(s, a)) && Next(s, a).wrote == s.wrote && Next(s, a).unrecorded == s.unrecorded
  {
    assert Changed(s.w.nas.records, s.w.nas.records) == {};
  }

  lemma UpsertTickKeeps(s: Sys, a: Action)
    requires Inv(s) && a.Tick? && s.alive && !s.rule.deleting && s.rule.finalizer
    ensures Inv(Next(s, a))
  {
    var w := s.w.(script := a.script);
    UpsertTick(s.cfg, a.cluster, s.cache, w, s.rule, a.lands);
    var t := Next(s, a);
    var rs, rs' := s.w.nas.records, t.w.nas.records;
    forall d | d in t.wrote && At(rs', d) != [] ensures d in t.unrecorded || d in Tracked(t.rule) {
      ChangedDescription(rs, rs', d);
      if d !in Changed(rs, rs') {
        assert At(rs', d) == At(rs, d);
      }
    }
  }

  lemma DeleteTickKeeps(s: Sys, a: Action)
    requires Inv(s) && a.Tick? && s.alive && s.rule.deleting
    ensures Inv(Next(s, a)) && Next(s, a).wrote == s.wrote && Next(s, a).unrecorded == s.unrecorded
  {
    var w := s.w.(script := a.script);
    DeleteTick(s.cfg, a.cluster, s.cache, w, s.rule, a.lands);
    var t := Next(s, a);
    var rs, rs' := s.w.nas.records, t.w.nas.records;
    forall d ensures d !in Changed(rs, rs') {
      ChangedDescription(rs, rs', d);
      assert KeptOrGone(rs, rs', d);
    }
    assert Changed(rs, rs') == {};
    assert Tracked(s.rule) <= SetOf(ManagedDescriptions(s.rule));
    forall d | d in t.wrote && At(rs', d) != [] ensures d in t.unrecorded || (!t.released && d in Tracked(t.rule)) {
      assert KeptOrGone(rs, rs', d);
    }
  }

  lemma {:induction false} RunKeepsInv(s: Sys, actions: seq<Action>)
    requires Init(s) && EnabledRun(s, actions)
    ensures Inv(Run(s, actions))
  {
    if actions != [] {
      RunKeepsInv(s, actions[..|actions| - 1]);
      NextKeepsInv(Run(s, actions[..|actions| - 1]), actions[|actions| - 1]);
    }
  }

  /** In every run: once the finalizer is gone, whatever the rule wrote and is still in
      DSM was written by a pass whose record list never reached the status. */
  lemma ReleasedLeavesOnlyUnrecorded(s: Sys, actions: seq<Action>)
    requires Init(s) && EnabledRun(s, actions)
    ensures
      var t := Run(s, actions);
      t.released ==> forall d | d in t.wrote && At(t.w.nas.records, d) != [] :: d in t.unrecorded
  {
    RunKeepsInv(s, actions);
  }

  /** In every run: while the rule lives, every record it wrote and that is in DSM is in
      the status, or was written by a pass whose record list never reached it; and
      writing at all needed the finalizer. */
  lemma WrittenIsAccountedFor(s: Sys, actions: seq<Action>)
    requires Init(s) && EnabledRun(s, actions)
    ensures
      var t := Run(s, actions);
      && (forall d | d in t.wrote && At(t.w.nas.records, d) != [] :: d in Tracked(t.rule) || d in t.unrecorded)
      && (t.wrote != {} ==> t.rule.finalizer || t.released)
  {
    RunKeepsInv(s, actions);
  }

  // ------------------------------------------------------------- disciplined runs

  /** The spec is edited and the rule deleted only when no pass is left unrecorded. */
  predicate Disciplined(s: Sys, a: Action) {
    a.Edit? || a.MarkDeleted? ==> s.unrecorded == {}
  }

  predicate DisciplinedRun(s: Sys, actions: seq<Action>) {
    actions == [] ||
    (DisciplinedRun(s, actions[..|actions| - 1]) &&
     Disciplined(Run(s, actions[..|actions| - 1]), actions[|actions| - 1]))
  }

  ghost predicate Orderly(s: Sys) {
    && Inv(s)
    && s.unrecorded <= WantedDescs(s.rule)
    && (s.rule.deleting ==> s.unrecorded == {})
  }

  lemma NextKeepsOrderly(s: Sys, a: Action)
    requires Orderly(s) && Enabled(s, a) && Disciplined(s, a)
    ensures Orderly(Next(s, a))
  {
    NextKeepsInv(s, a);
    if a.Tick? && s.alive {
      if s.rule.deleting {
        DeleteTickKeeps(s, a);
        DeleteTick(s.cfg, a.cluster, s.cache, s.w.(script := a.script), s.rule, a.lands);
      } else if s.rule.finalizer {
        UpsertTickOrderly(s, a);
      } else {
        IdleTickKeeps(s, a);
      }
    }
  }

  lemma UpsertTickOrderly(s: Sys, a: Action)
    requires Orderly(s) && a.Tick? && s.alive && !s.rule.deleting && s.rule.finalizer
    ensures
      var t := Next(s, a);
      && t.unrecorded <= WantedDescs(t.rule) && !t.rule.deleting
      && (Reconcile(s.cfg, a.cluster, s.cache, s.w.(script := a.script), s.rule, a.lands).recorded ==>
           t.unrecorded == {})
  {
    UpsertTick(s.cfg, a.cluster, s.cache, s.w.(script := a.script), s.rule, a.lands);
    var t := Next(s, a);
    var rs, rs' := s.w.nas.records, t.w.nas.records;
    assert WantedDescs(t.rule) == WantedDescs(s.rule);
    forall d | d in Changed(rs, rs') ensures d in WantedDescs(s.rule) {
      ChangedDescription(rs, rs', d);
      assert !KeptOrGone(rs, rs', d);
    }
  }

  lemma {:induction false} RunKeepsOrderly(s: Sys, actions: seq<Action>)
    requires Init(s) && EnabledRun(s, actions) && DisciplinedRun(s, actions)
    ensures Orderly(Run(s, actions))
  {
    if actions != [] {
      RunKeepsOrderly(s, actions[..|actions| - 1]);
      NextKeepsOrderly(Run(s, actions[..|actions| - 1]), actions[|actions| - 1]);
    }
  }

  /** No orphans: when every unrecorded pass is made good before the next edit or the
      deletion, DSM holds nothing the rule wrote once the finalizer is gone, whatever
      the network did and wherever the operator crashed. */
  lemma NoOrphans(s: Sys, actions: seq<Action>)
    requires Init(s) && EnabledRun(s, actions) && DisciplinedRun(s, actions)
    ensures
      var t := Run(s, actions);
      t.released ==> forall d | d in t.wrote :: At(t.w.nas.records, d) == []
  {
    RunKeepsOrderly(s, actions);
  }

  /** Making good takes one pass that is recorded: in a disciplined run nothing stays
      unrecorded after it. */
  lemma RecordedPassMakesGood(s: Sys, actions: seq<Action>, a: Action)
    requires Init(s) && EnabledRun(s, actions) && DisciplinedRun(s, actions) && a.Tick?
    requires
      var t := Run(s, actions);
      t.alive && Reconcile(t.cfg, a.cluster, t.cache, t.w.(script := a.script), t.rule, a.lands).recorded
    ensures Next(Run(s, actions), a).unrecorded == {}
  {
    RunKeepsOrderly(s, actions);
    var t := Run(s, actions);
    if t.rule.deleting {
      DeleteTick(t.cfg, a.cluster, t.cache, t.w.(script := a.script), t.rule, a.lands);
    } else if t.rule.finalizer {
      UpsertTickOrderly(t, a);
    }
  }

  // --------------------------------------------------------- when a release orphans

  /** A record the rule wrote is in DSM. */
  predicate Left(s: Sys, d: string) {
    d in s.wrote && At(s.w.nas.records, d) != []
  }

  /** A record that deletion will miss: its pass was never recorded, and deletion does not
      go by its description. */
  predicate Missed(s: Sys, d: string) {
    Left(s, d) && d in s.unrecorded && d !in ManagedDescriptions(s.rule)
  }

  /** The reconcile that releases the rule leaves exactly the records that deletion
      misses, which can be told before it runs. */
  lemma ReleaseOrphansExactly(s: Sys, actions: seq<Action>, a: Action)
    requires Init(s) && EnabledRun(s, actions) && a.Tick?
    requires
      var t := Run(s, actions);
      t.alive && t.rule.deleting && t.rule.finalizer && Next(t, a).released
    ensures
      var t := Run(s, actions);
      && (forall d :: Left(Next(t, a), d) <==> Missed(t, d))
      && ((exists d :: Left(Next(t, a), d)) <==> (exists d :: Missed(t, d)))
  {
    RunKeepsInv(s, actions);
    var t := Run(s, actions);
    var w := t.w.(script := a.script);
    DeleteTickKeeps(t, a);
    var gone := DeletePassEffect(w, t.rule);
    assert gone == SetOf(ManagedDescriptions(t.rule));
    forall d ensures Left(Next(t, a), d) <==> Missed(t, d) {
      AtDrop(t.w.nas.records, gone, d);
      assert Tracked(t.rule) <= gone;
    }
  }

  // ------------------------------------------------------------ the finalizer

  /** A rule without the finalizer never causes a create or update, and unless it is
      being deleted nothing is sent at all. */
  lemma NoWriteWithoutFinalizer(cfg: Config, cluster: Cluster, cache: AclCache, w: World, rule: Rule, lands: bool)
    requires Sound(w.nas) && !rule.finalizer
    ensures
      var r := Reconcile(cfg, cluster, cache, w, rule, lands);
      && LogGrows(w.log, r.w.log, x => EraseExchange(x))
      && (!rule.deleting ==> r.w == w)
  {
    if rule.deleting {
      var gone := DeletePassEffect(w, rule);
    }
  }

  /** A deleted rule is cleaned up even when the finalizer is missing and something
      else keeps the object: exactly then does a reconcile without the finalizer
      change the record list. */
  lemma UnguardedChange(cfg: Config, cluster: Cluster, cache: AclCache, w: World, rule: Rule, lands: bool)
    requires Sound(w.nas) && !rule.finalizer && w.script == []
    ensures Reconcile(cfg, cluster, cache, w, rule, lands).w.nas.records != w.nas.records
       <==> rule.deleting && exists d | d in ManagedDescriptions(rule) :: At(w.nas.records, d) != []
  {
    if rule.deleting {
      var ds := SetOf(ManagedDescriptions(rule));
      DeletePassHealthy(w, rule);
      if d :| d in ManagedDescriptions(rule) && At(w.nas.records, d) != [] {
        AtDrop(w.nas.records, ds, d);
      } else {
        DropNothing(w.nas.records, ds);
      }
    }
  }

  // ------------------------------------------------- an orphan without discipline

  const CRASHED := Event(0, Granted("sid", "token"), Crash(true), Granted("sid", "token"))

  /** The operator stops right after DSM has created the record of the first host. */
  lemma CrashAfterCreate(w: World, plan: Plan, status: Status)
    requires Sound(w.nas) && w.script == [HEALTHY, CRASHED]
    requires status.managed == [] && plan.hosts != []
    requires At(w.nas.records, plan.hosts[0].desc) == [] && !FrontendTaken(w.nas.records, Want(plan, 0).frontend)
    ensures
      var p := RunPlan(w, plan, status);
      && p.halt == Crashed && !p.write
      && At(p.w.nas.records, plan.hosts[0].desc) != []
  {
    var e := Want(plan, 0);
    PostFirst(w, List);
    var w1 := Post(w, List).w;
    PostFirst(w1, Create(e));
    CreateKeepsSound(w.nas, e);
    var u := Upsert(w, RuleAt(plan, 0));
    assert u.res == Stopped && u.w == Post(w1, Create(e)).w;
    assert Sweep(w, status.managed, Descs(plan), 0) == Swept(w, [], false);
    CrashStays(w, plan, status.managed, |plan.hosts|);
  }

  lemma {:induction false} CrashStays(w: World, plan: Plan, managed: seq<ManagedRecord>, k: nat)
    requires 0 < k <= |plan.hosts| && SyncHost(w, plan, 0, managed).res.Stopped?
    ensures SyncHosts(w, plan, managed, k) == Synced(SyncHost(w, plan, 0, managed).w, [], Crashed)
  {
    if k == 1 {
      assert SyncHosts(w, plan, managed, 0) == Synced(w, [], Running);
    } else {
      CrashStays(w, plan, managed, k - 1);
    }
  }

  function PlainSpec(description: string): Spec {
    Spec("s", [], 443, "h", 80, "http", "", Some(false), [], None, None, None, description, "")
  }

  const FRESH := Sys(
    Config("", ""), AclCache(map[], 0),
    World(Nas([], 1, [], [], [], false), [], [], 0, "", "", 0),
    Rule("ns", "r", PlainSpec("a"), Status([], 0, false, "", 0), true, false),
    true, false, false, {}, {})

  lemma RunFour(s: Sys, a: Action, b: Action, c: Action, d: Action)
    ensures Run(s, [a, b, c, d]) == Next(Next(Next(Next(s, a), b), c), d)
    ensures !a.Elsewhere? && !b.Elsewhere? && !c.Elsewhere? && !d.Elsewhere? ==> EnabledRun(s, [a, b, c, d])
  {
    var all := [a, b, c, d];
    assert all[..3] == [a, b, c] && [a, b, c][..2] == [a, b] && [a, b][..1] == [a] && [a][..0] == [];
    assert Run(s, [a]) == Next(Run(s, []), a);
    assert Run(s, [a, b]) == Next(Run(s, [a]), b);
    assert Run(s, [a, b, c]) == Next(Run(s, [a, b]), c);
    assert EnabledRun(s, []);
    if !a.Elsewhere? && !b.Elsewhere? && !c.Elsewhere? && !d.Elsewhere? {
      assert EnabledRun(s, [a]);
      assert EnabledRun(s, [a, b]);
      assert EnabledRun(s, [a, b, c]);
    }
  }

  lemma FirstTickCrashes(cluster: Cluster)
    ensures
      var t := Next(FRESH, Tick([HEALTHY, CRASHED], cluster, true));
      && t.rule == FRESH.rule && t.alive && !t.heldByOthers && !t.released
      && Sound(t.w.nas) && At(t.w.nas.records, "a") != [] && "a" in t.wrote
  {
    var w := FRESH.w.(script := [HEALTHY, CRASHED]);
    var rule := FRESH.rule;
    var prep := Prepare(FRESH.cfg, cluster, FRESH.cache, w, rule);
    var plan := PlanFor(rule, "h", 80, "", "s");
    assert prep.result == Planned(plan) && prep.w == w;
    assert plan.hosts[0] == HostEntry("a", "s");
    CrashAfterCreate(w, plan, rule.status);
    var t := Next(FRESH, Tick([HEALTHY, CRASHED], cluster, true));
    assert t.w == RunPlan(w, plan, rule.status).w;
    ChangedDescription([], t.w.nas.records, "a");
    UpsertTick(FRESH.cfg, cluster, FRESH.cache, w, rule, true);
  }

  /** Without that discipline a record can be orphaned: a crash after DSM created it, an
      edit of the description, and the deletion, which goes by the new description. */
  lemma OrphanRun(cluster: Cluster) returns (actions: seq<Action>)
    ensures Init(FRESH) && EnabledRun(FRESH, actions)
    ensures
      var t := Run(FRESH, actions);
      t.released && "a" in t.wrote && At(t.w.nas.records, "a") != []
  {
    var crash := Tick([HEALTHY, CRASHED], cluster, true);
    var edit := Edit(PlainSpec("b"));
    var done := Tick([], cluster, true);
    actions := [crash, edit, MarkDeleted, done];
    RunFour(FRESH, crash, edit, MarkDeleted, done);
    FirstTickCrashes(cluster);
    var t := Next(Next(Next(FRESH, crash), edit), MarkDeleted);
    assert ManagedDescriptions(t.rule) == ["b"];
    DeletePassHealthy(t.w.(script := []), t.rule);
    AtDrop(t.w.nas.records, SetOf(["b"]), "a");
  }
}
