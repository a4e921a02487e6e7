/** Certificate rows of several rules over one DSM: whose turns can change them, and when the
    order of turns matters to them. */
module SharedRows {
  import opened Dsm
  import opened Proxy
  import opened Rules
  import opened Sync
  import opened Convergence
  import opened Silence
  import opened Ledger
  import opened Rows
  import opened RowTurns
  import opened Fleet
  import opened Contention
  import opened Handover

  // ------------------------------------------------- turns of others, any network

  /** All rules but `b` are strangers to `v`. */
  ghost predicate RowAway(f: Fleet, b: nat, v: Uuid) {
    && Sound(f.w.nas)
    && forall x | 0 <= x < |f.jobs| && x != b ::
         WellNamed(f.jobs[x].plan) && Stranger(f.w.nas, f.jobs[x].plan, f.jobs[x].status.managed, v)
  }

  lemma TurnLeavesRow(f: Fleet, b: nat, x: nat, v: Uuid)
    requires RowAway(f, b, v) && x < |f.jobs| && x != b
    ensures RowAway(Turn(f, x), b, v)
    ensures CertsOf(Turn(f, x).w.nas.services, v) == CertsOf(f.w.nas.services, v)
  {
    var nas' := Turn(f, x).w.nas;
    PassSound(f.w, f.jobs[x]);
    PassLeavesRow(f.w, f.jobs[x].plan, f.jobs[x].status, v);
    forall y | 0 <= y < |f.jobs| && y != b && y != x
      ensures Stranger(nas', f.jobs[y].plan, f.jobs[y].status.managed, v)
    {
      StaysStranger(f.w.nas, nas', f.jobs[y].plan, f.jobs[y].status.managed, v);
    }
  }

  /** While no other rule tracks the UUID of a record, its rows change only in turns of its own
      rule, whatever the network does. */
  lemma {:induction false} OthersLeaveRow(f: Fleet, order: seq<nat>, b: nat, v: Uuid)
    requires Indices(f, order) && b !in order && RowAway(f, b, v)
    ensures RowAway(Play(f, order), b, v)
    ensures CertsOf(Play(f, order).w.nas.services, v) == CertsOf(f.w.nas.services, v)
  {
    if order != [] {
      var n := |order| - 1;
      assert order[n] in order;
      OthersLeaveRow(f, order[..n], b, v);
      TurnLeavesRow(Play(f, order[..n]), b, order[n], v);
    }
  }

  // ---------------------------------------------------------- who has had a turn

  /** Each rule tracks allocated UUIDs and none of its own records under another description. */
  ghost predicate Orderly(f: Fleet) {
    && NoFutureRows(f.w.nas)
    && forall i | 0 <= i < |f.jobs| :: Uncrossed(f.w.nas, f.jobs[i].plan, f.jobs[i].status.managed)
  }

  /** A planned record that was there has the UUID it had, another one a fresh UUID. */
  ghost predicate UuidsKept(nas0: Nas, nas: Nas, plan: Plan) {
    forall i | 0 <= i < |plan.hosts| && At(nas.records, plan.hosts[i].desc) != [] ::
      Placed(nas0.records, nas0.next, plan.hosts[i].desc, At(nas.records, plan.hosts[i].desc)[0].uuid)
  }

  ghost predicate Waiting(nas0: Nas, nas: Nas, j0: Job, j: Job) {
    j == j0 && forall d | d in Scope(j0) :: At(nas.records, d) == At(nas0.records, d)
  }

  /** It has had a turn: stopped where it is stuck, with its first status, or converged. */
  ghost predicate HadTurn(f0: Fleet, far: seq<nat>, f: Fleet, a: nat)
    requires a < |f0.jobs| == |far| && |f.jobs| == |f0.jobs|
  {
    && ServedTo(f0, f.w.nas.records, a, far)
    && (f.jobs[a] == f0.jobs[a] || Converged(f.w.nas, f0.jobs[a].plan, f.jobs[a].status))
  }

  ghost predicate Stands(f0: Fleet, far: seq<nat>, f: Fleet, order: seq<nat>, a: nat)
    requires a < |f0.jobs| == |far| && |f.jobs| == |f0.jobs|
  {
    && UuidsKept(f0.w.nas, f.w.nas, f0.jobs[a].plan)
    && if a in order then HadTurn(f0, far, f, a) else Waiting(f0.w.nas, f.w.nas, f0.jobs[a], f.jobs[a])
  }

  /** A run in which the rules of `order` have had turns. */
  ghost predicate Roster(f0: Fleet, far: seq<nat>, f: Fleet, order: seq<nat>) {
    && Onward(f0, f) && Capped(f0, f.w.nas.records, far)
    && f0.w.nas.next <= f.w.nas.next && f.w.nas.certificates == f0.w.nas.certificates && NoFutureRows(f.w.nas)
    && forall a | 0 <= a < |f0.jobs| :: Stands(f0, far, f, order, a)
  }

  /** The rules are unobstructed up to where they are stuck, contest nothing, and are orderly. */
  ghost predicate Tidy(f0: Fleet, far: seq<nat>) {
    Steady(f0, far) && Uncontested(f0, far) && Orderly(f0)
  }

  lemma RosterAtStart(f0: Fleet, far: seq<nat>)
    requires Tidy(f0, far)
    ensures Roster(f0, far, f0, [])
  {
    StartOnward(f0);
    CapsAtStart(f0, far);
  }

  lemma StillThere(f0: Fleet, rs: seq<ProxyEntry>, a: nat, i: nat)
    requires Between(f0, rs) && a < |f0.jobs| && i < |f0.jobs[a].plan.hosts|
    requires At(f0.w.nas.records, f0.jobs[a].plan.hosts[i].desc) != []
    ensures At(rs, f0.jobs[a].plan.hosts[i].desc) != []
  {
    var d := f0.jobs[a].plan.hosts[i].desc;
    assert Underway(f0.w.nas.records, rs, f0.jobs[a]) && d in Scope(f0.jobs[a]);
    if At(rs, d) != At(f0.w.nas.records, d) {
      assert Shows(At(f0.w.nas.records, d), At(rs, d), Want(f0.jobs[a].plan, i));
    }
  }

  lemma StillUncrossed(nas0: Nas, nas: Nas, plan: Plan, managed: seq<ManagedRecord>)
    requires Sound(nas) && Uncrossed(nas0, plan, managed) && UuidsKept(nas0, nas, plan) && nas0.next <= nas.next
    ensures Uncrossed(nas, plan, managed)
  {
    forall m, r | m in managed && r in nas.records && r.description in Descs(plan) && r.uuid == m.uuid
      ensures r.description == m.description
    {
      var d := r.description;
      var i :| 0 <= i < |plan.hosts| && plan.hosts[i].desc == d;
      AtMembers(nas.records, d);
      assert r in At(nas.records, d) && At(nas.records, d)[0] == r;
      assert Placed(nas0.records, nas0.next, plan.hosts[i].desc, r.uuid);
      var at := At(nas0.records, d);
      AtMembers(nas0.records, d);
      assert at[0] in at;
    }
  }

  // ------------------------------------------------------------------ a turn

  lemma ReachIsFar(f0: Fleet, far: seq<nat>, f: Fleet, a: nat, k: nat)
    requires Tidy(f0, far) && Onward(f0, f) && Capped(f0, f.w.nas.records, far) && a < |f0.jobs|
    requires GetsTo(f.w.nas.records, Turn(f, a).w.nas.records, f.jobs[a], k)
    ensures k == far[a]
  {
    var rs0, rs, rs' := f0.w.nas.records, f.w.nas.records, Turn(f, a).w.nas.records;
    StartIsBehind(f0, rs);
    StartOnward(f0);
    CapsAtStart(f0, far);
    CappedTurn(f0, f, far, a);
    assert Accounts(rs, f0.jobs[a], f.jobs[a]);
    GetsAsFar(f0, far, rs0, rs, rs', a, f0.jobs[a], f.jobs[a], far[a], k);
    if far[a] < |f0.jobs[a].plan.hosts| {
      CappedReach(rs, rs', f.jobs[a], k, far[a]);
    }
  }

  lemma TurnReach(f0: Fleet, far: seq<nat>, f: Fleet, order: seq<nat>, a: nat)
    requires Tidy(f0, far) && Roster(f0, far, f, order) && a < |f0.jobs|
    ensures
      var t := Turn(f, a);
      && Onward(f0, t) && Capped(f0, t.w.nas.records, far) && AllAhead(f0, f.w.nas.records, t.w.nas.records)
      && GetsTo(f.w.nas.records, t.w.nas.records, f.jobs[a], far[a])
      && ServedTo(f0, t.w.nas.records, a, far)
  {
    var k := TurnOnward(f0, f, a);
    ReachIsFar(f0, far, f, a, k);
    CappedTurn(f0, f, far, a);
  }

  lemma ConvergedTurn(f: Fleet, a: nat)
    requires Sound(f.w.nas) && f.w.script == [] && a < |f.jobs|
    requires Converged(f.w.nas, f.jobs[a].plan, f.jobs[a].status)
    ensures Turn(f, a).w.nas == f.w.nas
    ensures RunPlan(f.w, f.jobs[a].plan, f.jobs[a].status).halt == Running
  {
    FixedPoint(f.w, f.jobs[a].plan, f.jobs[a].status);
  }

  /** The rows of a turn: as `RowTurns.PassRows` has them, or all as before. */
  ghost predicate OwnRows(f0: Fleet, far: seq<nat>, f: Fleet, order: seq<nat>, a: nat, nas': Nas)
    requires a < |f0.jobs| == |far| && |f.jobs| == |f0.jobs| && far[a] <= |f0.jobs[a].plan.hosts|
  {
    if f.jobs[a] == f0.jobs[a] then RowsAfter(f.w.nas, nas', f0.jobs[a].plan, f0.jobs[a].status.managed, far[a])
    else a in order && nas' == f.w.nas
  }

  lemma TurnRows(f0: Fleet, far: seq<nat>, f: Fleet, order: seq<nat>, a: nat)
    requires Tidy(f0, far) && Roster(f0, far, f, order) && a < |f0.jobs|
    ensures OwnRows(f0, far, f, order, a, Turn(f, a).w.nas)
  {
    TurnReach(f0, far, f, order, a);
    assert Stands(f0, far, f, order, a) && Accounts(f.w.nas.records, f0.jobs[a], f.jobs[a]);
    if f.jobs[a] == f0.jobs[a] {
      StillUncrossed(f0.w.nas, f.w.nas, f0.jobs[a].plan, f0.jobs[a].status.managed);
      PassRows(f.w, f0.jobs[a].plan, f0.jobs[a].status, far[a]);
    } else {
      ConvergedTurn(f, a);
    }
  }

  /** A healthy turn leaves its rule converged, or with the status it had. */
  lemma TurnStatus(f: Fleet, a: nat)
    requires Sound(f.w.nas) && f.w.script == [] && a < |f.jobs| && WellNamed(f.jobs[a].plan)
    ensures
      var t := Turn(f, a);
      if RunPlan(f.w, f.jobs[a].plan, f.jobs[a].status).halt == Running
      then Converged(t.w.nas, f.jobs[a].plan, t.jobs[a].status)
      else t.jobs[a] == f.jobs[a]
  {
    HealthyPass(f.w, f.jobs[a].plan, f.jobs[a].status);
  }

  lemma MoverHadTurn(f0: Fleet, far: seq<nat>, f: Fleet, order: seq<nat>, a: nat)
    requires Tidy(f0, far) && Roster(f0, far, f, order) && a < |f0.jobs|
    ensures HadTurn(f0, far, Turn(f, a), a)
  {
    TurnReach(f0, far, f, order, a);
    assert Stands(f0, far, f, order, a) && Accounts(f.w.nas.records, f0.jobs[a], f.jobs[a]);
    TurnStatus(f, a);
    if f.jobs[a] != f0.jobs[a] {
      ConvergedTurn(f, a);
    }
  }

  lemma MoverUuids(f0: Fleet, far: seq<nat>, f: Fleet, order: seq<nat>, a: nat)
    requires Tidy(f0, far) && Roster(f0, far, f, order) && a < |f0.jobs|
    ensures UuidsKept(f0.w.nas, Turn(f, a).w.nas, f0.jobs[a].plan)
  {
    TurnReach(f0, far, f, order, a);
    TurnRows(f0, far, f, order, a);
    assert Stands(f0, far, f, order, a) && Accounts(f.w.nas.records, f0.jobs[a], f.jobs[a]);
    var plan, nas' := f0.jobs[a].plan, Turn(f, a).w.nas;
    forall i | 0 <= i < |plan.hosts| && At(nas'.records, plan.hosts[i].desc) != []
      ensures Placed(f0.w.nas.records, f0.w.nas.next, plan.hosts[i].desc, At(nas'.records, plan.hosts[i].desc)[0].uuid)
    {
      MoverUuid(f0, far, f, order, a, i);
    }
  }

  lemma MoverUuid(f0: Fleet, far: seq<nat>, f: Fleet, order: seq<nat>, a: nat, i: nat)
    requires Tidy(f0, far) && Roster(f0, far, f, order) && a < |f0.jobs| && i < |f0.jobs[a].plan.hosts|
    requires Stands(f0, far, f, order, a) && OwnRows(f0, far, f, order, a, Turn(f, a).w.nas)
    requires f.jobs[a].plan == f0.jobs[a].plan
    requires GetsTo(f.w.nas.records, Turn(f, a).w.nas.records, f.jobs[a], far[a])
    requires At(Turn(f, a).w.nas.records, f0.jobs[a].plan.hosts[i].desc) != []
    ensures
      var d := f0.jobs[a].plan.hosts[i].desc;
      Placed(f0.w.nas.records, f0.w.nas.next, d, At(Turn(f, a).w.nas.records, d)[0].uuid)
  {
    var plan := f0.jobs[a].plan;
    var d := plan.hosts[i].desc;
    if f.jobs[a] == f0.jobs[a] && d in DescsUpTo(plan, far[a]) {
      var j :| 0 <= j < far[a] && plan.hosts[j].desc == d;
      assert NewRow(f.w.nas, Turn(f, a).w.nas, plan, j);
      if At(f0.w.nas.records, d) != [] {
        StillThere(f0, f.w.nas.records, a, i);
      }
    }
  }

  /** A turn of `a` leaves the corner of another rule. */
  lemma OthersCorner(f0: Fleet, f: Fleet, rs': seq<ProxyEntry>, a: nat, b: nat, k: nat)
    requires Team(f0) && Onward(f0, f) && a < |f0.jobs| && b < |f0.jobs| && a != b
    requires GetsTo(f.w.nas.records, rs', f.jobs[a], k)
    ensures forall d | d in Scope(f0.jobs[b]) :: At(rs', d) == At(f.w.nas.records, d)
    ensures forall i | 0 <= i < |f0.jobs[b].plan.hosts| ::
      At(rs', f0.jobs[b].plan.hosts[i].desc) == At(f.w.nas.records, f0.jobs[b].plan.hosts[i].desc)
  {
    assert Accounts(f.w.nas.records, f0.jobs[a], f.jobs[a]);
    assert Scope(f0.jobs[a]) !! Scope(f0.jobs[b]);
    forall i | 0 <= i < |f0.jobs[b].plan.hosts| ensures f0.jobs[b].plan.hosts[i].desc in Scope(f0.jobs[b]) {}
  }

  /** And its standing. */
  lemma OthersStand(f0: Fleet, far: seq<nat>, f: Fleet, order: seq<nat>, a: nat, b: nat)
    requires Tidy(f0, far) && Roster(f0, far, f, order) && a < |f0.jobs| && b < |f0.jobs| && a != b
    requires GetsTo(f.w.nas.records, Turn(f, a).w.nas.records, f.jobs[a], far[a])
    requires AllAhead(f0, f.w.nas.records, Turn(f, a).w.nas.records)
    ensures Stands(f0, far, Turn(f, a), order + [a], b)
    ensures forall d | d in Scope(f0.jobs[b]) :: At(Turn(f, a).w.nas.records, d) == At(f.w.nas.records, d)
  {
    OthersCorner(f0, f, Turn(f, a).w.nas.records, a, b, far[a]);
    assert Ahead(f0.w.nas.records, f.w.nas.records, Turn(f, a).w.nas.records, f0.jobs[b]);
    StandsStill(f0, far, f, Turn(f, a), order, a, b);
  }

  lemma StandsStill(f0: Fleet, far: seq<nat>, f: Fleet, f': Fleet, order: seq<nat>, a: nat, b: nat)
    requires b < |f0.jobs| == |far| && |f.jobs| == |f'.jobs| == |f0.jobs| && a != b && Stands(f0, far, f, order, b)
    requires f'.jobs[b] == f.jobs[b] && Ahead(f0.w.nas.records, f.w.nas.records, f'.w.nas.records, f0.jobs[b])
    requires forall d | d in Scope(f0.jobs[b]) :: At(f'.w.nas.records, d) == At(f.w.nas.records, d)
    requires forall i | 0 <= i < |f0.jobs[b].plan.hosts| ::
      At(f'.w.nas.records, f0.jobs[b].plan.hosts[i].desc) == At(f.w.nas.records, f0.jobs[b].plan.hosts[i].desc)
    ensures Stands(f0, far, f', order + [a], b)
  {
  }

  lemma TurnRoster(f0: Fleet, far: seq<nat>, f: Fleet, order: seq<nat>, a: nat)
    requires Tidy(f0, far) && Roster(f0, far, f, order) && a < |f0.jobs|
    ensures Roster(f0, far, Turn(f, a), order + [a])
  {
    TurnReach(f0, far, f, order, a);
    TurnRows(f0, far, f, order, a);
    MoverHadTurn(f0, far, f, order, a);
    MoverUuids(f0, far, f, order, a);
    assert Accounts(f.w.nas.records, f0.jobs[a], f.jobs[a]);
    var failed := PassEffect(f.w, f.jobs[a].plan, f.jobs[a].status);
    forall b | 0 <= b < |f0.jobs| ensures Stands(f0, far, Turn(f, a), order + [a], b) {
      if b != a {
        OthersStand(f0, far, f, order, a, b);
      }
    }
  }

  lemma {:induction false} PlayRoster(f0: Fleet, far: seq<nat>, order: seq<nat>)
    requires Tidy(f0, far) && Indices(f0, order)
    ensures Roster(f0, far, Play(f0, order), order)
  {
    if order == [] {
      RosterAtStart(f0, far);
    } else {
      var n := |order| - 1;
      PlayRoster(f0, far, order[..n]);
      LastRoster(f0, far, Play(f0, order[..n]), order, n);
    }
  }

  lemma LastRoster(f0: Fleet, far: seq<nat>, f: Fleet, order: seq<nat>, n: nat)
    requires Tidy(f0, far) && Indices(f0, order) && |order| == n + 1 && Roster(f0, far, f, order[..n])
    ensures Roster(f0, far, Turn(f, order[n]), order)
  {
    TurnRoster(f0, far, f, order[..n], order[n]);
    assert order == order[..n] + [order[n]];
  }

  // -------------------------------------------------------- what rows turns leave

  /** In its first turn rule `a` removes the rows of `v`. */
  ghost predicate DroppedBy(f0: Fleet, far: seq<nat>, a: nat, v: Uuid)
    requires a < |f0.jobs| == |far|
  {
    && far[a] <= |f0.jobs[a].plan.hosts|
    && Dropped(f0.w.nas, f0.jobs[a].plan, f0.jobs[a].status.managed, far[a], v)
  }

  /** In its first turn rule `a` assigns a certificate to `v`. */
  ghost predicate AssignedBy(f0: Fleet, far: seq<nat>, a: nat, v: Uuid)
    requires a < |f0.jobs| == |far|
  {
    far[a] <= |f0.jobs[a].plan.hosts| && Assigned(f0.w.nas, f0.jobs[a].plan, far[a], v)
  }

  /** No rule removes the rows of a record to which another assigns a certificate. */
  ghost predicate NoRobbery(f0: Fleet, far: seq<nat>) {
    && |far| == |f0.jobs|
    && forall a, b, v | 0 <= a < |far| && 0 <= b < |far| && a != b && DroppedBy(f0, far, a, v) ::
         !AssignedBy(f0, far, b, v)
  }

  /** The rows of `v` once host `k` of rule `b` has assigned its certificate. */
  function FinalRow(f0: Fleet, b: nat, k: nat, v: Uuid): seq<string>
    requires b < |f0.jobs| && k < |f0.jobs[b].plan.hosts|
  {
    Reassigned(CertsOf(f0.w.nas.services, v),
      Replaced(PrevOf(f0.jobs[b].status.managed, f0.jobs[b].plan.hosts[k].desc), v), Best(f0.w.nas, f0.jobs[b].plan, k))
  }

  /** The rows are as rule `a` leaves them, if it has to do with them. */
  ghost predicate LeftBy(f0: Fleet, far: seq<nat>, a: nat, v: Uuid, rows: seq<string>)
    requires a < |f0.jobs| == |far| && far[a] <= |f0.jobs[a].plan.hosts|
  {
    && (DroppedBy(f0, far, a, v) ==> rows == [])
    && (forall k | 0 <= k < far[a] && AssignsTo(f0.w.nas, f0.jobs[a].plan, k, v) :: rows == FinalRow(f0, a, k, v))
  }

  ghost predicate Concerns(f0: Fleet, far: seq<nat>, a: nat, v: Uuid)
    requires a < |f0.jobs| == |far|
  {
    DroppedBy(f0, far, a, v) || AssignedBy(f0, far, a, v)
  }

  /** The rows of `v` after turns of the rules of `order`. */
  ghost predicate SharedRow(f0: Fleet, far: seq<nat>, f: Fleet, order: seq<nat>, v: Uuid)
    requires Caps(f0, far)
  {
    var rows := CertsOf(f.w.nas.services, v);
    && (forall a | 0 <= a < |far| && a in order :: LeftBy(f0, far, a, v, rows))
    && ((forall a | 0 <= a < |far| && a in order :: !Concerns(f0, far, a, v)) ==> rows == CertsOf(f0.w.nas.services, v))
  }

  /** The records rule `a` has created have their first rows. */
  ghost predicate FreshLeft(f0: Fleet, far: seq<nat>, f: Fleet, a: nat)
    requires Caps(f0, far) && a < |far|
  {
    forall i | 0 <= i < far[a] && At(f0.w.nas.records, f0.jobs[a].plan.hosts[i].desc) == [] ::
      var at := At(f.w.nas.records, f0.jobs[a].plan.hosts[i].desc);
      at != [] && CertsOf(f.w.nas.services, at[0].uuid) == FreshRows(f0.w.nas, f0.jobs[a].plan, i)
  }

  ghost predicate RowsRun(f0: Fleet, far: seq<nat>, f: Fleet, order: seq<nat>)
    requires Caps(f0, far)
  {
    && (forall v: Uuid | v < f0.w.nas.next :: SharedRow(f0, far, f, order, v))
    && (forall a | 0 <= a < |far| && a in order :: FreshLeft(f0, far, f, a))
  }

  lemma SameDrops(f0: Fleet, far: seq<nat>, f: Fleet, order: seq<nat>, a: nat, v: Uuid)
    requires Tidy(f0, far) && Roster(f0, far, f, order) && a < |f0.jobs| && v < f0.w.nas.next
    ensures Dropped(f.w.nas, f0.jobs[a].plan, f0.jobs[a].status.managed, far[a], v) <==> DroppedBy(f0, far, a, v)
  {
    var plan, managed := f0.jobs[a].plan, f0.jobs[a].status.managed;
    assert Stands(f0, far, f, order, a);
    forall i | 0 <= i < far[a] ensures Drops(f.w.nas, plan, managed, i, v) == Drops(f0.w.nas, plan, managed, i, v) {
      if At(f0.w.nas.records, plan.hosts[i].desc) != [] {
        StillThere(f0, f.w.nas.records, a, i);
      }
      assert At(f.w.nas.records, plan.hosts[i].desc) != [] ==>
        Placed(f0.w.nas.records, f0.w.nas.next, plan.hosts[i].desc, At(f.w.nas.records, plan.hosts[i].desc)[0].uuid);
    }
  }

  lemma WaitingAssigns(f0: Fleet, far: seq<nat>, f: Fleet, order: seq<nat>, a: nat, i: nat, v: Uuid)
    requires Tidy(f0, far) && Roster(f0, far, f, order) && a < |f0.jobs| && a !in order && i < |f0.jobs[a].plan.hosts|
    ensures AssignsTo(f.w.nas, f0.jobs[a].plan, i, v) <==> AssignsTo(f0.w.nas, f0.jobs[a].plan, i, v)
  {
    assert Stands(f0, far, f, order, a);
    assert f0.jobs[a].plan.hosts[i].desc in Scope(f0.jobs[a]);
  }

  lemma ServedAssignsNone(f0: Fleet, far: seq<nat>, f: Fleet, order: seq<nat>, a: nat, i: nat, v: Uuid)
    requires Tidy(f0, far) && Roster(f0, far, f, order) && a < |f0.jobs| && a in order && i < far[a]
    ensures At(f.w.nas.records, f0.jobs[a].plan.hosts[i].desc) != []
    ensures !AssignsTo(f.w.nas, f0.jobs[a].plan, i, v)
  {
    var plan := f0.jobs[a].plan;
    var d := plan.hosts[i].desc;
    assert Stands(f0, far, f, order, a);
    assert d in Scope(f0.jobs[a]) && d in DescsUpTo(plan, far[a]);
    assert InPlace(f0.w.nas.records, f.w.nas.records, plan, d);
    ShowsEqual(At(f0.w.nas.records, d), At(f.w.nas.records, d), Want(plan, i));
  }

  lemma ShowsEqual(at0: seq<ProxyEntry>, at: seq<ProxyEntry>, e: ProxyEntry)
    requires Shows(at0, at, e)
    ensures at != [] && ProxyRecordEqual(at[0], e)
  {
    assert Face(at[0]).frontend == at[0].frontend && Face(at[0]).backend == at[0].backend;
  }

  /** The first turn of a rule. */
  lemma FirstTurnRow(f0: Fleet, far: seq<nat>, f: Fleet, order: seq<nat>, a: nat, v: Uuid)
    requires Tidy(f0, far) && Roster(f0, far, f, order) && a < |f0.jobs| && a !in order && v < f0.w.nas.next
    ensures
      var rows, rows' := CertsOf(f.w.nas.services, v), CertsOf(Turn(f, a).w.nas.services, v);
      && (DroppedBy(f0, far, a, v) ==> rows' == [])
      && (rows == CertsOf(f0.w.nas.services, v) ==> LeftBy(f0, far, a, v, rows'))
      && (AssignedBy(f0, far, a, v) ==> rows' != [])
      && (!Concerns(f0, far, a, v) ==> rows' == rows)
  {
    var plan, managed := f0.jobs[a].plan, f0.jobs[a].status.managed;
    assert Stands(f0, far, f, order, a);
    TurnRows(f0, far, f, order, a);
    assert OldRow(f.w.nas, Turn(f, a).w.nas, plan, managed, far[a], v);
    SameDrops(f0, far, f, order, a, v);
    forall i | 0 <= i < far[a] ensures AssignsTo(f.w.nas, plan, i, v) == AssignsTo(f0.w.nas, plan, i, v) {
      WaitingAssigns(f0, far, f, order, a, i, v);
    }
  }

  /** A later turn leaves the rows as the first left them. */
  lemma LaterTurnRow(f0: Fleet, far: seq<nat>, f: Fleet, order: seq<nat>, a: nat, v: Uuid)
    requires Tidy(f0, far) && Roster(f0, far, f, order) && a < |f0.jobs| && a in order && v < f0.w.nas.next
    requires LeftBy(f0, far, a, v, CertsOf(f.w.nas.services, v))
    ensures CertsOf(Turn(f, a).w.nas.services, v) == CertsOf(f.w.nas.services, v)
  {
    var plan, managed := f0.jobs[a].plan, f0.jobs[a].status.managed;
    TurnRows(f0, far, f, order, a);
    if f.jobs[a] == f0.jobs[a] {
      assert OldRow(f.w.nas, Turn(f, a).w.nas, plan, managed, far[a], v);
      SameDrops(f0, far, f, order, a, v);
      forall i | 0 <= i < far[a] ensures !AssignsTo(f.w.nas, plan, i, v) {
        ServedAssignsNone(f0, far, f, order, a, i, v);
      }
    }
  }

  /** The rows of a record created meanwhile are not touched. */
  lemma FreshKept(f0: Fleet, far: seq<nat>, f: Fleet, order: seq<nat>, a: nat, u: Uuid)
    requires Tidy(f0, far) && Roster(f0, far, f, order) && a < |f0.jobs| && f0.w.nas.next <= u < f.w.nas.next
    ensures CertsOf(Turn(f, a).w.nas.services, u) == CertsOf(f.w.nas.services, u)
  {
    var plan, managed := f0.jobs[a].plan, f0.jobs[a].status.managed;
    TurnRows(f0, far, f, order, a);
    if f.jobs[a] == f0.jobs[a] {
      assert OldRow(f.w.nas, Turn(f, a).w.nas, plan, managed, far[a], u);
      forall i | 0 <= i < far[a] ensures !AssignsTo(f.w.nas, plan, i, u) && !Drops(f.w.nas, plan, managed, i, u) {
        FreshUntouched(f0, far, f, order, a, i, u);
      }
    }
  }

  lemma FreshUntouched(f0: Fleet, far: seq<nat>, f: Fleet, order: seq<nat>, a: nat, i: nat, u: Uuid)
    requires Tidy(f0, far) && Roster(f0, far, f, order) && a < |f0.jobs| && i < far[a] && f0.w.nas.next <= u
    ensures !AssignsTo(f.w.nas, f0.jobs[a].plan, i, u)
    ensures !Drops(f.w.nas, f0.jobs[a].plan, f0.jobs[a].status.managed, i, u)
  {
    var d := f0.jobs[a].plan.hosts[i].desc;
    PrevOfMember(f0.jobs[a].status.managed, d);
    assert Uncrossed(f0.w.nas, f0.jobs[a].plan, f0.jobs[a].status.managed);
    if a in order {
      ServedAssignsNone(f0, far, f, order, a, i, u);
    } else {
      WaitingAssigns(f0, far, f, order, a, i, u);
      if At(f0.w.nas.records, d) != [] {
        UuidInRange(f0.w.nas, d);
      }
    }
  }

  /** Only one rule assigns to a record. */
  lemma OneAssigns(f0: Fleet, far: seq<nat>, a: nat, b: nat, v: Uuid)
    requires Team(f0) && a < |f0.jobs| == |far| && b < |f0.jobs|
    requires AssignedBy(f0, far, a, v) && AssignedBy(f0, far, b, v)
    ensures a == b
  {
    var i :| 0 <= i < far[a] && AssignsTo(f0.w.nas, f0.jobs[a].plan, i, v);
    var k :| 0 <= k < far[b] && AssignsTo(f0.w.nas, f0.jobs[b].plan, k, v);
    var r := AssignedIsOwn(f0.w.nas, f0.jobs[a].plan, i, v);
    var q := AssignedIsOwn(f0.w.nas, f0.jobs[b].plan, k, v);
    if r != q {
      UuidsDiffer(f0.w.nas.records, r, q);
    }
    assert r.description in Scope(f0.jobs[a]) && r.description in Scope(f0.jobs[b]);
  }

  lemma NextSharedRow(f0: Fleet, far: seq<nat>, f: Fleet, order: seq<nat>, a: nat, v: Uuid)
    requires Tidy(f0, far) && NoRobbery(f0, far) && Roster(f0, far, f, order) && a < |f0.jobs| && v < f0.w.nas.next
    requires SharedRow(f0, far, f, order, v)
    ensures SharedRow(f0, far, Turn(f, a), order + [a], v)
  {
    if a in order {
      LaterTurnRow(f0, far, f, order, a, v);
    } else {
      FirstTurnRow(f0, far, f, order, a, v);
      FirstSharedRow(f0, far, f, Turn(f, a), order, a, v);
    }
  }

  lemma FirstSharedRow(f0: Fleet, far: seq<nat>, f: Fleet, f': Fleet, order: seq<nat>, a: nat, v: Uuid)
    requires Tidy(f0, far) && NoRobbery(f0, far) && a < |f0.jobs| && a !in order && SharedRow(f0, far, f, order, v)
    requires
      var rows, rows' := CertsOf(f.w.nas.services, v), CertsOf(f'.w.nas.services, v);
      && (DroppedBy(f0, far, a, v) ==> rows' == [])
      && (rows == CertsOf(f0.w.nas.services, v) ==> LeftBy(f0, far, a, v, rows'))
      && (!Concerns(f0, far, a, v) ==> rows' == rows)
    ensures SharedRow(f0, far, f', order + [a], v)
  {
    var rows' := CertsOf(f'.w.nas.services, v);
    if Concerns(f0, far, a, v) {
      OthersUnconcerned(f0, far, f, order, a, v);
      forall x | 0 <= x < |far| && x in order ensures LeftBy(f0, far, x, v, rows') {
        if !DroppedBy(f0, far, a, v) {
          UnconcernedLeft(f0, far, x, v, rows');
        }
      }
      SharedWith(f0, far, f', order, a, v);
    } else {
      SharedWithout(f0, far, f, f', order, a, v);
    }
  }

  lemma SharedWithout(f0: Fleet, far: seq<nat>, f: Fleet, f': Fleet, order: seq<nat>, a: nat, v: Uuid)
    requires Caps(f0, far) && a < |far| && !Concerns(f0, far, a, v) && SharedRow(f0, far, f, order, v)
    requires CertsOf(f'.w.nas.services, v) == CertsOf(f.w.nas.services, v)
    ensures SharedRow(f0, far, f', order + [a], v)
  {
    UnconcernedLeft(f0, far, a, v, CertsOf(f.w.nas.services, v));
    assert forall x | 0 <= x < |far| && x in order + [a] :: x in order || x == a;
  }

  lemma UnconcernedLeft(f0: Fleet, far: seq<nat>, a: nat, v: Uuid, rows: seq<string>)
    requires Caps(f0, far) && a < |far| && !Concerns(f0, far, a, v)
    ensures LeftBy(f0, far, a, v, rows)
  {
  }

  lemma SharedWith(f0: Fleet, far: seq<nat>, f: Fleet, order: seq<nat>, a: nat, v: Uuid)
    requires Caps(f0, far) && a < |far| && Concerns(f0, far, a, v)
    requires LeftBy(f0, far, a, v, CertsOf(f.w.nas.services, v))
    requires forall x | 0 <= x < |far| && x in order :: LeftBy(f0, far, x, v, CertsOf(f.w.nas.services, v))
    ensures SharedRow(f0, far, f, order + [a], v)
  {
  }

  /** What the first turn of a rule that has to do with `v` means for the others. */
  lemma OthersUnconcerned(f0: Fleet, far: seq<nat>, f: Fleet, order: seq<nat>, a: nat, v: Uuid)
    requires Tidy(f0, far) && NoRobbery(f0, far) && a < |f0.jobs| && a !in order && Concerns(f0, far, a, v)
    requires SharedRow(f0, far, f, order, v)
    ensures !DroppedBy(f0, far, a, v) ==> CertsOf(f.w.nas.services, v) == CertsOf(f0.w.nas.services, v)
    ensures !DroppedBy(f0, far, a, v) ==> forall x | 0 <= x < |far| && x in order :: !Concerns(f0, far, x, v)
    ensures DroppedBy(f0, far, a, v) ==> forall x | 0 <= x < |far| && x in order :: LeftBy(f0, far, x, v, [])
    ensures DroppedBy(f0, far, a, v) ==> LeftBy(f0, far, a, v, [])
  {
    if DroppedBy(f0, far, a, v) {
      forall x | 0 <= x < |far| && (x in order || x == a) ensures LeftBy(f0, far, x, v, []) {
        DropsWin(f0, far, a, x, v);
      }
    } else {
      forall x | 0 <= x < |far| && x in order ensures !Concerns(f0, far, x, v) {
        if AssignedBy(f0, far, x, v) {
          OneAssigns(f0, far, a, x, v);
        }
      }
    }
  }

  lemma DropsWin(f0: Fleet, far: seq<nat>, a: nat, x: nat, v: Uuid)
    requires Tidy(f0, far) && NoRobbery(f0, far) && a < |f0.jobs| && x < |f0.jobs| && DroppedBy(f0, far, a, v)
    ensures LeftBy(f0, far, x, v, [])
  {
    forall k | 0 <= k < far[x] ensures !AssignsTo(f0.w.nas, f0.jobs[x].plan, k, v) {
      if AssignsTo(f0.w.nas, f0.jobs[x].plan, k, v) {
        assert AssignedBy(f0, far, x, v) && x == a;
        var i :| 0 <= i < far[a] && Drops(f0.w.nas, f0.jobs[a].plan, f0.jobs[a].status.managed, i, v);
        AssignedNotDropped(f0.w.nas, f0.jobs[a].plan, f0.jobs[a].status.managed, k, i, v);
      }
    }
  }

  lemma NextFreshOther(f0: Fleet, far: seq<nat>, f: Fleet, order: seq<nat>, a: nat, b: nat)
    requires Tidy(f0, far) && Roster(f0, far, f, order) && a < |f0.jobs| && b < |f0.jobs| && a != b && b in order
    requires FreshLeft(f0, far, f, b)
    ensures FreshLeft(f0, far, Turn(f, a), b)
  {
    TurnReach(f0, far, f, order, a);
    OthersStand(f0, far, f, order, a, b);
    assert Stands(f0, far, f, order, b);
    forall i | 0 <= i < far[b] && At(f0.w.nas.records, f0.jobs[b].plan.hosts[i].desc) == []
      ensures
        var at := At(Turn(f, a).w.nas.records, f0.jobs[b].plan.hosts[i].desc);
        at != [] && CertsOf(Turn(f, a).w.nas.services, at[0].uuid) == FreshRows(f0.w.nas, f0.jobs[b].plan, i)
    {
      var d := f0.jobs[b].plan.hosts[i].desc;
      assert d in Scope(f0.jobs[b]);
      UuidInRange(f.w.nas, d);
      FreshKept(f0, far, f, order, a, At(f.w.nas.records, d)[0].uuid);
    }
  }

  lemma NextFreshOwn(f0: Fleet, far: seq<nat>, f: Fleet, order: seq<nat>, a: nat)
    requires Tidy(f0, far) && Roster(f0, far, f, order) && a < |f0.jobs|
    requires a in order ==> FreshLeft(f0, far, f, a)
    ensures FreshLeft(f0, far, Turn(f, a), a)
  {
    forall i | 0 <= i < far[a] && At(f0.w.nas.records, f0.jobs[a].plan.hosts[i].desc) == []
      ensures
        var at := At(Turn(f, a).w.nas.records, f0.jobs[a].plan.hosts[i].desc);
        at != [] && CertsOf(Turn(f, a).w.nas.services, at[0].uuid) == FreshRows(f0.w.nas, f0.jobs[a].plan, i)
    {
      NextFreshHost(f0, far, f, order, a, i);
    }
  }

  lemma NextFreshHost(f0: Fleet, far: seq<nat>, f: Fleet, order: seq<nat>, a: nat, i: nat)
    requires Tidy(f0, far) && Roster(f0, far, f, order) && a < |f0.jobs| && i < far[a]
    requires a in order ==> FreshLeft(f0, far, f, a)
    requires At(f0.w.nas.records, f0.jobs[a].plan.hosts[i].desc) == []
    ensures
      var at := At(Turn(f, a).w.nas.records, f0.jobs[a].plan.hosts[i].desc);
      at != [] && CertsOf(Turn(f, a).w.nas.services, at[0].uuid) == FreshRows(f0.w.nas, f0.jobs[a].plan, i)
  {
    var plan := f0.jobs[a].plan;
    var d := plan.hosts[i].desc;
    assert Stands(f0, far, f, order, a) && d in Scope(f0.jobs[a]);
    TurnRows(f0, far, f, order, a);
    if f.jobs[a] == f0.jobs[a] {
      assert NewRow(f.w.nas, Turn(f, a).w.nas, plan, i);
    }
    if a in order {
      assert At(f.w.nas.records, d) != [];
      UuidInRange(f.w.nas, d);
      FreshKept(f0, far, f, order, a, At(f.w.nas.records, d)[0].uuid);
    }
  }

  lemma NextRowsRun(f0: Fleet, far: seq<nat>, f: Fleet, order: seq<nat>, a: nat)
    requires Tidy(f0, far) && NoRobbery(f0, far) && Roster(f0, far, f, order) && a < |f0.jobs|
    requires RowsRun(f0, far, f, order)
    ensures RowsRun(f0, far, Turn(f, a), order + [a])
  {
    var next := order + [a];
    forall v: Uuid | v < f0.w.nas.next ensures SharedRow(f0, far, Turn(f, a), next, v) {
      NextSharedRow(f0, far, f, order, a, v);
    }
    forall b | 0 <= b < |far| && b in next ensures FreshLeft(f0, far, Turn(f, a), b) {
      if b == a {
        NextFreshOwn(f0, far, f, order, a);
      } else {
        NextFreshOther(f0, far, f, order, a, b);
      }
    }
  }

  lemma {:induction false} PlayRows(f0: Fleet, far: seq<nat>, order: seq<nat>)
    requires Tidy(f0, far) && NoRobbery(f0, far) && Indices(f0, order)
    ensures RowsRun(f0, far, Play(f0, order), order)
  {
    if order != [] {
      var n := |order| - 1;
      PlayRows(f0, far, order[..n]);
      PlayRoster(f0, far, order[..n]);
      LastRowsRun(f0, far, Play(f0, order[..n]), order, n);
    }
  }

  lemma LastRowsRun(f0: Fleet, far: seq<nat>, f: Fleet, order: seq<nat>, n: nat)
    requires Tidy(f0, far) && NoRobbery(f0, far) && Indices(f0, order) && |order| == n + 1
    requires Roster(f0, far, f, order[..n]) && RowsRun(f0, far, f, order[..n])
    ensures RowsRun(f0, far, Turn(f, order[n]), order)
  {
    NextRowsRun(f0, far, f, order[..n], order[n]);
    assert order == order[..n] + [order[n]];
  }

  // ------------------------------------------------------------- any two orders

  /** Two DSMs look alike at a description, certificate rows included. */
  ghost predicate RowsAlike(a: Nas, b: Nas, d: string) {
    && Alike(a.records, b.records, d)
    && forall i | 0 <= i < |At(a.records, d)| ::
         CertsOf(a.services, At(a.records, d)[i].uuid) == CertsOf(b.services, At(b.records, d)[i].uuid)
  }

  /** And everywhere, the rows of old UUIDs included that no record has any more. */
  ghost predicate SameDsm(nas0: Nas, a: Nas, b: Nas) {
    && (forall d :: RowsAlike(a, b, d))
    && forall v: Uuid | v < nas0.next :: CertsOf(a.services, v) == CertsOf(b.services, v)
  }

  ghost predicate WholeOrderIrrelevant(f: Fleet) {
    forall one, two | Complete(f, one) && Complete(f, two) ::
      SameDsm(f.w.nas, Play(f, one).w.nas, Play(f, two).w.nas)
  }

  lemma RowsAgree(f0: Fleet, far: seq<nat>, f: Fleet, g: Fleet, one: seq<nat>, two: seq<nat>, v: Uuid)
    requires Caps(f0, far) && SharedRow(f0, far, f, one, v) && SharedRow(f0, far, g, two, v)
    requires forall a | 0 <= a < |far| && Concerns(f0, far, a, v) :: a in one && a in two
    ensures CertsOf(f.w.nas.services, v) == CertsOf(g.w.nas.services, v)
  {
    if a :| 0 <= a < |far| && Concerns(f0, far, a, v) {
      assert LeftBy(f0, far, a, v, CertsOf(f.w.nas.services, v)) && LeftBy(f0, far, a, v, CertsOf(g.w.nas.services, v));
      if !DroppedBy(f0, far, a, v) {
        var k :| 0 <= k < far[a] && AssignsTo(f0.w.nas, f0.jobs[a].plan, k, v);
      }
    }
  }

  /** A record of a rule's plan, in two runs: the same old one, or created in both. */
  lemma PlannedAgree(f0: Fleet, far: seq<nat>, f: Fleet, g: Fleet, one: seq<nat>, two: seq<nat>, a: nat, i: nat)
    requires Tidy(f0, far) && Roster(f0, far, f, one) && Roster(f0, far, g, two)
    requires a < |f0.jobs| && i < |f0.jobs[a].plan.hosts| && FreshLeft(f0, far, f, a) && FreshLeft(f0, far, g, a)
    requires
      var d := f0.jobs[a].plan.hosts[i].desc;
      && At(f.w.nas.records, d) != [] && At(g.w.nas.records, d) != []
      && (At(f0.w.nas.records, d) != [] ==>
            var u := At(f0.w.nas.records, d)[0].uuid; CertsOf(f.w.nas.services, u) == CertsOf(g.w.nas.services, u))
    ensures
      var d := f0.jobs[a].plan.hosts[i].desc;
      CertsOf(f.w.nas.services, At(f.w.nas.records, d)[0].uuid)
        == CertsOf(g.w.nas.services, At(g.w.nas.records, d)[0].uuid)
  {
    var plan := f0.jobs[a].plan;
    var d := plan.hosts[i].desc;
    assert Stands(f0, far, f, one, a) && Stands(f0, far, g, two, a);
    if At(f0.w.nas.records, d) == [] {
      var j := CreatedBefore(f0, far, f, a, i);
      assert FreshRows(f0.w.nas, plan, j) == FreshRows(f0.w.nas, plan, j);
    }
  }

  lemma CreatedBefore(f0: Fleet, far: seq<nat>, f: Fleet, a: nat, i: nat) returns (j: nat)
    requires Caps(f0, far) && Between(f0, f.w.nas.records) && Capped(f0, f.w.nas.records, far)
    requires a < |f0.jobs| && i < |f0.jobs[a].plan.hosts|
    requires
      var d := f0.jobs[a].plan.hosts[i].desc;
      At(f0.w.nas.records, d) == [] && At(f.w.nas.records, d) != []
    ensures j < far[a] && f0.jobs[a].plan.hosts[j].desc == f0.jobs[a].plan.hosts[i].desc
  {
    var plan := f0.jobs[a].plan;
    var d := plan.hosts[i].desc;
    assert Underway(f0.w.nas.records, f.w.nas.records, f0.jobs[a]);
    assert d in DescsUpTo(plan, far[a]);
    j :| 0 <= j < far[a] && plan.hosts[j].desc == d;
  }

  lemma OldRowsAgree(f0: Fleet, far: seq<nat>, one: seq<nat>, two: seq<nat>)
    requires Tidy(f0, far) && NoRobbery(f0, far) && Complete(f0, one) && Complete(f0, two)
    ensures forall v: Uuid | v < f0.w.nas.next ::
      CertsOf(Play(f0, one).w.nas.services, v) == CertsOf(Play(f0, two).w.nas.services, v)
  {
    PlayRows(f0, far, one);
    PlayRows(f0, far, two);
    forall v: Uuid | v < f0.w.nas.next
      ensures CertsOf(Play(f0, one).w.nas.services, v) == CertsOf(Play(f0, two).w.nas.services, v)
    {
      RowsAgree(f0, far, Play(f0, one), Play(f0, two), one, two, v);
    }
  }

  lemma OutsideRows(f0: Fleet, a: Nas, b: Nas, d: string)
    requires Sound(f0.w.nas) && Between(f0, a.records) && Between(f0, b.records) && d !in Scopes(f0)
    requires forall v: Uuid | v < f0.w.nas.next :: CertsOf(a.services, v) == CertsOf(b.services, v)
    ensures RowsAlike(a, b, d)
  {
    AtFrame(a.records, f0.w.nas.records, Scopes(f0), d);
    AtFrame(b.records, f0.w.nas.records, Scopes(f0), d);
    if At(a.records, d) != [] {
      UuidInRange(f0.w.nas, d);
    }
  }

  lemma InsideRows(f0: Fleet, far: seq<nat>, one: seq<nat>, two: seq<nat>, a: nat, d: string)
    requires Tidy(f0, far) && NoRobbery(f0, far) && Complete(f0, one) && Complete(f0, two)
    requires a < |f0.jobs| && d in Scope(f0.jobs[a])
    ensures RowsAlike(Play(f0, one).w.nas, Play(f0, two).w.nas, d)
  {
    var f, g := Play(f0, one), Play(f0, two);
    OrderDoesNotMatter(f0, far, one, two, d);
    PlayRoster(f0, far, one);
    PlayRoster(f0, far, two);
    PlayRows(f0, far, one);
    PlayRows(f0, far, two);
    OldRowsAgree(f0, far, one, two);
    if At(f0.w.nas.records, d) != [] {
      UuidInRange(f0.w.nas, d);
    }
    CornerRows(f0, far, f, g, one, two, a, d);
  }

  lemma CornerRows(f0: Fleet, far: seq<nat>, f: Fleet, g: Fleet, one: seq<nat>, two: seq<nat>, a: nat, d: string)
    requires Tidy(f0, far) && Roster(f0, far, f, one) && Roster(f0, far, g, two) && a < |f0.jobs| && a in one
    requires a in two
    requires FreshLeft(f0, far, f, a) && FreshLeft(f0, far, g, a)
    requires d in Scope(f0.jobs[a]) && Alike(f.w.nas.records, g.w.nas.records, d)
    requires d in Descs(f0.jobs[a].plan) && At(f0.w.nas.records, d) != [] ==>
      var u := At(f0.w.nas.records, d)[0].uuid; CertsOf(f.w.nas.services, u) == CertsOf(g.w.nas.services, u)
    ensures RowsAlike(f.w.nas, g.w.nas, d)
  {
    var plan := f0.jobs[a].plan;
    if At(f.w.nas.records, d) != [] {
      StillPlanned(f0, far, f, one, a, d);
      var i :| 0 <= i < |plan.hosts| && plan.hosts[i].desc == d;
      PlannedAgree(f0, far, f, g, one, two, a, i);
    }
    RowAlike(f.w.nas, g.w.nas, d);
  }

  lemma StillPlanned(f0: Fleet, far: seq<nat>, f: Fleet, order: seq<nat>, a: nat, d: string)
    requires Tidy(f0, far) && Roster(f0, far, f, order) && a < |f0.jobs| && a in order
    requires d in Scope(f0.jobs[a]) && At(f.w.nas.records, d) != []
    ensures d in Descs(f0.jobs[a].plan)
  {
    assert Stands(f0, far, f, order, a);
    assert d !in Descs(f0.jobs[a].plan) ==> InPlace(f0.w.nas.records, f.w.nas.records, f0.jobs[a].plan, d);
  }

  lemma RowAlike(a: Nas, b: Nas, d: string)
    requires Sound(a) && Alike(a.records, b.records, d)
    requires At(a.records, d) != [] ==>
      CertsOf(a.services, At(a.records, d)[0].uuid) == CertsOf(b.services, At(b.records, d)[0].uuid)
    ensures RowsAlike(a, b, d)
  {
    assert |At(a.records, d)| <= 1;
  }

  lemma NoRobberyAgree(f0: Fleet, far: seq<nat>)
    requires Tidy(f0, far) && NoRobbery(f0, far)
    ensures WholeOrderIrrelevant(f0)
  {
    forall one, two | Complete(f0, one) && Complete(f0, two)
      ensures SameDsm(f0.w.nas, Play(f0, one).w.nas, Play(f0, two).w.nas)
    {
      OldRowsAgree(f0, far, one, two);
      PlayRoster(f0, far, one);
      PlayRoster(f0, far, two);
      forall d ensures RowsAlike(Play(f0, one).w.nas, Play(f0, two).w.nas, d) {
        if d in Scopes(f0) {
          var a :| 0 <= a < |f0.jobs| && d in Scope(f0.jobs[a]);
          InsideRows(f0, far, one, two, a, d);
        } else {
          OutsideRows(f0, Play(f0, one).w.nas, Play(f0, two).w.nas, d);
        }
      }
    }
  }

  lemma DroppedIsOld(f0: Fleet, far: seq<nat>, a: nat, v: Uuid)
    requires Orderly(f0) && a < |f0.jobs| == |far| && DroppedBy(f0, far, a, v)
    ensures v < f0.w.nas.next
  {
    var i :| 0 <= i < far[a] && Drops(f0.w.nas, f0.jobs[a].plan, f0.jobs[a].status.managed, i, v);
    PrevOfMember(f0.jobs[a].status.managed, f0.jobs[a].plan.hosts[i].desc);
    assert Uncrossed(f0.w.nas, f0.jobs[a].plan, f0.jobs[a].status.managed);
  }

  /** A rule that has its first turn when everybody else has had one. */
  lemma LastTurn(f0: Fleet, far: seq<nat>, a: nat, v: Uuid) returns (order: seq<nat>)
    requires Tidy(f0, far) && a < |f0.jobs| && v < f0.w.nas.next
    ensures Complete(f0, order)
    ensures
      var rows := CertsOf(Play(f0, order).w.nas.services, v);
      (DroppedBy(f0, far, a, v) ==> rows == []) && (AssignedBy(f0, far, a, v) ==> rows != [])
  {
    var rest := EverybodyElse(|f0.jobs|, a);
    PlayRoster(f0, far, rest);
    FirstTurnRow(f0, far, Play(f0, rest), rest, a, v);
    order := rest + [a];
    PlaySnoc(f0, rest, a);
    assert order[|rest|] == a;
  }

  lemma RobberyMatters(f0: Fleet, far: seq<nat>, a: nat, b: nat, v: Uuid)
    requires Tidy(f0, far) && a < |f0.jobs| && b < |f0.jobs| && a != b
    requires DroppedBy(f0, far, a, v) && AssignedBy(f0, far, b, v)
    ensures !WholeOrderIrrelevant(f0)
  {
    DroppedIsOld(f0, far, a, v);
    var one := LastTurn(f0, far, a, v);
    var two := LastTurn(f0, far, b, v);
    assert !SameDsm(f0.w.nas, Play(f0, one).w.nas, Play(f0, two).w.nas);
  }

  lemma WholeIsMore(f0: Fleet)
    requires WholeOrderIrrelevant(f0)
    ensures OrderIrrelevant(f0)
  {
    forall one, two, d | Complete(f0, one) && Complete(f0, two)
      ensures Alike(Play(f0, one).w.nas.records, Play(f0, two).w.nas.records, d)
    {
      assert SameDsm(f0.w.nas, Play(f0, one).w.nas, Play(f0, two).w.nas);
      assert RowsAlike(Play(f0, one).w.nas, Play(f0, two).w.nas, d);
    }
  }

  /** Of rules that are unobstructed up to where they are stuck for good, each with its own
      records tracked in order: all orders of turns end in the same DSM, certificate rows
      included, exactly when none contests a frontend and none has tracked, for a host it
      gets to, the record to which another assigns a certificate. */
  lemma WholeOrderExactly(f: Fleet, far: seq<nat>)
    requires Steady(f, far) && Orderly(f)
    ensures WholeOrderIrrelevant(f) <==> Uncontested(f, far) && NoRobbery(f, far)
  {
    if Uncontested(f, far) && NoRobbery(f, far) {
      NoRobberyAgree(f, far);
    } else if !Uncontested(f, far) {
      OrderMattersExactly(f, far);
      if WholeOrderIrrelevant(f) {
        WholeIsMore(f);
      }
    } else {
      var a, b, v :| 0 <= a < |far| && 0 <= b < |far| && a != b && DroppedBy(f, far, a, v) && AssignedBy(f, far, b, v);
      RobberyMatters(f, far, a, b, v);
    }
  }

  // ------------------------------------------------------------------- company

  /** Every rule that has had a turn finds its corner of DSM, rows included, as if alone. */
  ghost predicate WholeAlone(f: Fleet) {
    forall order, i, d | Indices(f, order) && 0 <= i < |f.jobs| && i in order && d in Scope(f.jobs[i]) ::
      RowsAlike(Play(f, order).w.nas, Turn(f, i).w.nas, d)
  }

  /** No rule removes the rows of a planned record of another that has or gets any. */
  ghost predicate NoLoss(f0: Fleet, far: seq<nat>) {
    && |far| == |f0.jobs|
    && forall a, b, r | 0 <= a < |far| && 0 <= b < |far| && a != b && r in f0.w.nas.records
           && r.description in Descs(f0.jobs[b].plan) && DroppedBy(f0, far, a, r.uuid) ::
         CertsOf(f0.w.nas.services, r.uuid) == [] && !AssignedBy(f0, far, b, r.uuid)
  }

  lemma NoLossNoRobbery(f0: Fleet, far: seq<nat>)
    requires NoLoss(f0, far)
    ensures NoRobbery(f0, far)
  {
    forall a, b, v | 0 <= a < |far| && 0 <= b < |far| && a != b && DroppedBy(f0, far, a, v)
      ensures !AssignedBy(f0, far, b, v)
    {
      if AssignedBy(f0, far, b, v) {
        var k :| 0 <= k < far[b] && AssignsTo(f0.w.nas, f0.jobs[b].plan, k, v);
        var r := AssignedIsOwn(f0.w.nas, f0.jobs[b].plan, k, v);
      }
    }
  }

  lemma OwnNotDroppedBy(f0: Fleet, far: seq<nat>, b: nat, r: ProxyEntry)
    requires Tidy(f0, far) && b < |f0.jobs| && r in f0.w.nas.records && r.description in Descs(f0.jobs[b].plan)
    ensures !DroppedBy(f0, far, b, r.uuid)
  {
    forall i | 0 <= i < far[b] ensures !Drops(f0.w.nas, f0.jobs[b].plan, f0.jobs[b].status.managed, i, r.uuid) {
      OwnNotDropped(f0.w.nas, f0.jobs[b].plan, f0.jobs[b].status.managed, r, i);
    }
  }

  /** A planned record of `b`, in a run and alone. */
  lemma CompanyRow(f0: Fleet, far: seq<nat>, order: seq<nat>, b: nat, r: ProxyEntry)
    requires Tidy(f0, far) && NoLoss(f0, far) && Indices(f0, order) && b < |f0.jobs| && b in order
    requires r in f0.w.nas.records && r.description in Descs(f0.jobs[b].plan)
    ensures CertsOf(Play(f0, order).w.nas.services, r.uuid) == CertsOf(Turn(f0, b).w.nas.services, r.uuid)
  {
    var v := r.uuid;
    NoLossNoRobbery(f0, far);
    PlayRows(f0, far, order);
    PlayRows(f0, far, [b]);
    PlayOne(f0, b);
    assert SharedRow(f0, far, Play(f0, order), order, v) && SharedRow(f0, far, Turn(f0, b), [b], v);
    OwnNotDroppedBy(f0, far, b, r);
    if a :| 0 <= a < |far| && a in order && a != b && Concerns(f0, far, a, v) {
      if DroppedBy(f0, far, a, v) {
        assert LeftBy(f0, far, a, v, CertsOf(Play(f0, order).w.nas.services, v));
        assert !Concerns(f0, far, b, v);
      } else {
        OthersAssign(f0, far, a, b, r);
      }
    } else {
      RowsAgreeAlone(f0, far, Play(f0, order), Turn(f0, b), order, b, v);
    }
  }

  lemma OthersAssign(f0: Fleet, far: seq<nat>, a: nat, b: nat, r: ProxyEntry)
    requires Team(f0) && a < |f0.jobs| == |far| && b < |f0.jobs| && AssignedBy(f0, far, a, r.uuid)
    requires r in f0.w.nas.records && r.description in Descs(f0.jobs[b].plan)
    ensures a == b
  {
    var i :| 0 <= i < far[a] && AssignsTo(f0.w.nas, f0.jobs[a].plan, i, r.uuid);
    var q := AssignedIsOwn(f0.w.nas, f0.jobs[a].plan, i, r.uuid);
    if r != q {
      UuidsDiffer(f0.w.nas.records, r, q);
    }
    assert r.description in Scope(f0.jobs[a]) && r.description in Scope(f0.jobs[b]);
  }

  lemma RowsAgreeAlone(f0: Fleet, far: seq<nat>, f: Fleet, g: Fleet, order: seq<nat>, b: nat, v: Uuid)
    requires Caps(f0, far) && b < |far| && b in order && SharedRow(f0, far, f, order, v)
    requires SharedRow(f0, far, g, [b], v)
    requires forall a | 0 <= a < |far| && a in order && a != b :: !Concerns(f0, far, a, v)
    ensures CertsOf(f.w.nas.services, v) == CertsOf(g.w.nas.services, v)
  {
    assert LeftBy(f0, far, b, v, CertsOf(f.w.nas.services, v)) && LeftBy(f0, far, b, v, CertsOf(g.w.nas.services, v));
    if Concerns(f0, far, b, v) && !DroppedBy(f0, far, b, v) {
      var k :| 0 <= k < far[b] && AssignsTo(f0.w.nas, f0.jobs[b].plan, k, v);
    }
  }

  lemma NoLossAlone(f0: Fleet, far: seq<nat>)
    requires Tidy(f0, far) && NoLoss(f0, far)
    ensures WholeAlone(f0)
  {
    NoLossNoRobbery(f0, far);
    forall order, b, d | Indices(f0, order) && 0 <= b < |f0.jobs| && b in order && d in Scope(f0.jobs[b])
      ensures RowsAlike(Play(f0, order).w.nas, Turn(f0, b).w.nas, d)
    {
      CompanyCorner(f0, far, order, b, d);
    }
  }

  lemma CompanyCorner(f0: Fleet, far: seq<nat>, order: seq<nat>, b: nat, d: string)
    requires Tidy(f0, far) && NoLoss(f0, far) && NoRobbery(f0, far)
    requires Indices(f0, order) && b < |f0.jobs| && b in order && d in Scope(f0.jobs[b])
    ensures RowsAlike(Play(f0, order).w.nas, Turn(f0, b).w.nas, d)
  {
    AsIfAlone(f0, far, order, b, d);
    PlayRoster(f0, far, order);
    PlayRoster(f0, far, [b]);
    PlayRows(f0, far, order);
    PlayRows(f0, far, [b]);
    PlayOne(f0, b);
    assert b in [b];
    var at := At(f0.w.nas.records, d);
    if d in Descs(f0.jobs[b].plan) && at != [] {
      AtMembers(f0.w.nas.records, d);
      assert at[0] in at;
      CompanyRow(f0, far, order, b, at[0]);
    }
    CornerRows(f0, far, Play(f0, order), Turn(f0, b), order, [b], b, d);
  }

  lemma LossMatters(f0: Fleet, far: seq<nat>, a: nat, b: nat, r: ProxyEntry)
    requires Tidy(f0, far) && a < |f0.jobs| && b < |f0.jobs| && a != b && DroppedBy(f0, far, a, r.uuid)
    requires r in f0.w.nas.records && r.description in Descs(f0.jobs[b].plan)
    requires CertsOf(f0.w.nas.services, r.uuid) != [] || AssignedBy(f0, far, b, r.uuid)
    ensures !WholeAlone(f0)
  {
    var d, order := r.description, [b] + [a];
    PlayOne(f0, b);
    PlaySnoc(f0, [b], a);
    LossTurns(f0, far, a, b, r);
    PlayRoster(f0, far, [b]);
    PlayRoster(f0, far, order);
    RecordStays(f0, far, Turn(f0, b), [b], b, r);
    RecordStays(f0, far, Play(f0, order), order, b, r);
    assert order[0] == b && d in Scope(f0.jobs[b]);
    NotWholeAlone(f0, order, b, d);
  }

  lemma NotWholeAlone(f: Fleet, order: seq<nat>, b: nat, d: string)
    requires Indices(f, order) && b < |f.jobs| && b in order && d in Scope(f.jobs[b])
    requires !RowsAlike(Play(f, order).w.nas, Turn(f, b).w.nas, d)
    ensures !WholeAlone(f)
  {
  }

  /** Alone, `b` leaves the record with a row. */
  lemma AloneHasRow(f0: Fleet, far: seq<nat>, b: nat, r: ProxyEntry)
    requires Tidy(f0, far) && b < |f0.jobs| && r in f0.w.nas.records && r.description in Descs(f0.jobs[b].plan)
    requires CertsOf(f0.w.nas.services, r.uuid) != [] || AssignedBy(f0, far, b, r.uuid)
    requires r.uuid < f0.w.nas.next
    ensures CertsOf(Turn(f0, b).w.nas.services, r.uuid) != []
  {
    OwnNotDroppedBy(f0, far, b, r);
    RosterAtStart(f0, far);
    FirstTurnRow(f0, far, f0, [], b, r.uuid);
  }

  lemma LossTurns(f0: Fleet, far: seq<nat>, a: nat, b: nat, r: ProxyEntry)
    requires Tidy(f0, far) && a < |f0.jobs| && b < |f0.jobs| && a != b && DroppedBy(f0, far, a, r.uuid)
    requires r in f0.w.nas.records && r.description in Descs(f0.jobs[b].plan)
    requires CertsOf(f0.w.nas.services, r.uuid) != [] || AssignedBy(f0, far, b, r.uuid)
    ensures CertsOf(Turn(f0, b).w.nas.services, r.uuid) != []
    ensures CertsOf(Turn(Turn(f0, b), a).w.nas.services, r.uuid) == []
  {
    DroppedIsOld(f0, far, a, r.uuid);
    AloneHasRow(f0, far, b, r);
    PlayOne(f0, b);
    PlayRoster(f0, far, [b]);
    FirstTurnRow(f0, far, Turn(f0, b), [b], a, r.uuid);
  }

  lemma RecordStays(f0: Fleet, far: seq<nat>, f: Fleet, order: seq<nat>, b: nat, r: ProxyEntry)
    requires Tidy(f0, far) && Roster(f0, far, f, order) && b < |f0.jobs|
    requires r in f0.w.nas.records && r.description in Descs(f0.jobs[b].plan)
    ensures
      var at := At(f.w.nas.records, r.description);
      at != [] && at[0].uuid == r.uuid
  {
    var plan := f0.jobs[b].plan;
    var i :| 0 <= i < |plan.hosts| && plan.hosts[i].desc == r.description;
    AtMembers(f0.w.nas.records, r.description);
    assert r in At(f0.w.nas.records, r.description);
    StillThere(f0, f.w.nas.records, b, i);
    assert Stands(f0, far, f, order, b);
  }

  lemma AloneIsMore(f0: Fleet)
    requires WholeAlone(f0)
    ensures AsIfAllAlone(f0)
  {
    forall order, i, d | Indices(f0, order) && 0 <= i < |f0.jobs| && i in order && d in Scope(f0.jobs[i])
      ensures Alike(Play(f0, order).w.nas.records, Turn(f0, i).w.nas.records, d)
    {
      assert RowsAlike(Play(f0, order).w.nas, Turn(f0, i).w.nas, d);
    }
  }

  /** And company makes no difference, rows included, exactly when none contests a frontend and
      none has tracked, for a host it gets to, a planned record of another that has a row or is
      assigned one. */
  lemma WholeCompanyExactly(f: Fleet, far: seq<nat>)
    requires Steady(f, far) && Orderly(f)
    ensures WholeAlone(f) <==> Uncontested(f, far) && NoLoss(f, far)
  {
    if Uncontested(f, far) && NoLoss(f, far) {
      NoLossAlone(f, far);
    } else if !Uncontested(f, far) {
      CompanyMattersExactly(f, far);
      if WholeAlone(f) {
        AloneIsMore(f);
      }
    } else {
      var a, b, r := SomeLoss(f, far);
      LossMatters(f, far, a, b, r);
    }
  }

  lemma SomeLoss(f: Fleet, far: seq<nat>) returns (a: nat, b: nat, r: ProxyEntry)
    requires |far| == |f.jobs| && !NoLoss(f, far)
    ensures a < |far| && b < |far| && a != b && r in f.w.nas.records && r.description in Descs(f.jobs[b].plan)
    ensures DroppedBy(f, far, a, r.uuid) && (CertsOf(f.w.nas.services, r.uuid) != [] || AssignedBy(f, far, b, r.uuid))
  {
    a, b, r :| 0 <= a < |far| && 0 <= b < |far| && a != b && r in f.w.nas.records
      && r.description in Descs(f.jobs[b].plan) && DroppedBy(f, far, a, r.uuid)
      && !(CertsOf(f.w.nas.services, r.uuid) == [] && !AssignedBy(f, far, b, r.uuid));
  }

  /** Rules whose books are in order lose nothing to each other. */
  lemma BookedIsSafe(f: Fleet, far: seq<nat>)
    requires Team(f) && NoFutureRows(f.w.nas) && |far| == |f.jobs|
    requires forall i | 0 <= i < |f.jobs| :: Booked(f.w.nas, f.jobs[i].status.managed)
    ensures Orderly(f) && NoLoss(f, far) && NoRobbery(f, far)
  {
    forall i | 0 <= i < |f.jobs| ensures Uncrossed(f.w.nas, f.jobs[i].plan, f.jobs[i].status.managed) {
      assert Booked(f.w.nas, f.jobs[i].status.managed);
    }
    forall a, r | 0 <= a < |far| && r in f.w.nas.records ensures !DroppedBy(f, far, a, r.uuid) {
      BookedDropsNone(f, far, a, r);
    }
    NoLossNoRobbery(f, far);
  }

  lemma BookedDropsNone(f: Fleet, far: seq<nat>, a: nat, r: ProxyEntry)
    requires Sound(f.w.nas) && a < |far| == |f.jobs| && Booked(f.w.nas, f.jobs[a].status.managed)
    requires r in f.w.nas.records
    ensures !DroppedBy(f, far, a, r.uuid)
  {
    var plan, managed := f.jobs[a].plan, f.jobs[a].status.managed;
    if far[a] <= |plan.hosts| {
      forall i | 0 <= i < far[a] ensures !Drops(f.w.nas, plan, managed, i, r.uuid) {
        PrevOfMember(managed, plan.hosts[i].desc);
        AtMembers(f.w.nas.records, plan.hosts[i].desc);
        assert r.description == plan.hosts[i].desc ==> r in At(f.w.nas.records, plan.hosts[i].desc);
      }
    }
  }

  /** A record renamed in DSM: rule 0 has one as planned, but its status has the UUID of the
      record that now bears the description of rule 1, which is to update it. */
  ghost predicate Renamed(f: Fleet, a: string, b: string, x: string, y: string, ra: ProxyEntry, rb: ProxyEntry) {
    && f.w.script == [] && Sound(f.w.nas) && NoFutureRows(f.w.nas) && f.w.nas.records == [ra, rb] && |f.jobs| == 2
    && ra.description == a && rb.description == b && a != b && x != y
    && f.jobs[0].plan.hosts == HostsOf(a, x, []) && f.jobs[1].plan.hosts == HostsOf(b, y, [])
    && |f.jobs[0].status.managed| == 1 && f.jobs[1].status.managed == []
    && f.jobs[0].status.managed[0].description == a && f.jobs[0].status.managed[0].uuid == rb.uuid
    && f.jobs[1].plan.assignCert && Best(f.w.nas, f.jobs[1].plan, 0) != ""
    && !ProxyRecordEqual(rb, Want(f.jobs[1].plan, 0))
  }

  lemma RenamedIsSteady(f: Fleet, a: string, b: string, x: string, y: string, ra: ProxyEntry, rb: ProxyEntry)
    requires Renamed(f, a, b, x, y, ra, rb)
    ensures Steady(f, [1, 1]) && Uncontested(f, [1, 1]) && Orderly(f)
  {
    TwoPresent(f.w.nas, ra, rb);
    OneHostScope(f.jobs[0], a, x);
    OneHostScope(f.jobs[1], b, y);
    PresentIsOpen(f.w.nas.records, f.jobs[0]);
    PresentIsOpen(f.w.nas.records, f.jobs[1]);
    OnlyOneWants(f, [1, 1]);
    RenamedIsOrderly(f, a, b, x, y, ra, rb);
  }

  lemma RenamedIsOrderly(f: Fleet, a: string, b: string, x: string, y: string, ra: ProxyEntry, rb: ProxyEntry)
    requires Renamed(f, a, b, x, y, ra, rb)
    ensures Orderly(f)
  {
    TwoPresent(f.w.nas, ra, rb);
    OneHostScope(f.jobs[0], a, x);
    UuidsDiffer(f.w.nas.records, ra, rb);
  }

  lemma RenamedRobs(f: Fleet, a: string, b: string, x: string, y: string, ra: ProxyEntry, rb: ProxyEntry)
    requires Renamed(f, a, b, x, y, ra, rb)
    ensures DroppedBy(f, [1, 1], 0, rb.uuid) && AssignedBy(f, [1, 1], 1, rb.uuid)
  {
    TwoPresent(f.w.nas, ra, rb);
    OneHostScope(f.jobs[0], a, x);
    OneHostScope(f.jobs[1], b, y);
    UuidsDiffer(f.w.nas.records, ra, rb);
    assert Drops(f.w.nas, f.jobs[0].plan, f.jobs[0].status.managed, 0, rb.uuid);
    assert AssignsTo(f.w.nas, f.jobs[1].plan, 0, rb.uuid);
  }

  /** If rule 1 goes first it loses the certificate it has just assigned. */
  lemma RenamedRecordMatters(f: Fleet, a: string, b: string, x: string, y: string, ra: ProxyEntry, rb: ProxyEntry)
    requires Renamed(f, a, b, x, y, ra, rb)
    ensures Steady(f, [1, 1]) && Uncontested(f, [1, 1]) && Orderly(f)
    ensures OrderIrrelevant(f) && !WholeOrderIrrelevant(f)
  {
    RenamedIsSteady(f, a, b, x, y, ra, rb);
    RenamedRobs(f, a, b, x, y, ra, rb);
    OrderMattersExactly(f, [1, 1]);
    RobberyMatters(f, [1, 1], 0, 1, rb.uuid);
  }

  lemma TwoPresent(nas: Nas, ra: ProxyEntry, rb: ProxyEntry)
    requires Sound(nas) && nas.records == [ra, rb] && ra.description != rb.description
    ensures At(nas.records, ra.description) == [ra] && At(nas.records, rb.description) == [rb]
    ensures NO_UUID < ra.uuid < nas.next && NO_UUID < rb.uuid < nas.next
  {
    var rs := nas.records;
    assert rs[0] == ra && rs[1..][0] == rb && rs[1..][1..] == [];
    assert ra in rs && rb in rs;
  }

  lemma OneHostScope(j: Job, d: string, host: string)
    requires j.plan.hosts == HostsOf(d, host, [])
    requires forall m | m in j.status.managed :: m.description == d
    ensures j.plan.hosts == [HostEntry(d, host)] && WellNamed(j.plan) && Descs(j.plan) == {d} && Scope(j) == {d}
  {
    assert j.plan.hosts == [HostEntry(d, host)];
    OneHost(j.plan);
  }

  lemma PresentIsOpen(rs: seq<ProxyEntry>, j: Job)
    requires |j.plan.hosts| == 1 && At(rs, j.plan.hosts[0].desc) != []
    ensures Unobstructed(Drop(rs, AllStale(j.status, j.plan)), j.plan, 1)
  {
    ScopeIsTerritory(j);
    AtDrop(rs, AllStale(j.status, j.plan), j.plan.hosts[0].desc);
  }

  // --------------------------------------------- rules that others hold up

  /** Rules some order serves, certificate rows included. */
  lemma ServableWhole(f: Fleet)
    requires Team(f) && Servable(f) && Orderly(f)
    ensures WholeOrderIrrelevant(f) <==> Uncontested(f, Full(f)) && NoHandover(f) && NoRobbery(f, Full(f))
    ensures WholeAlone(f) <==> Uncontested(f, Full(f)) && NoHandover(f) && NoLoss(f, Full(f))
  {
    ServableExactly(f);
    if WholeOrderIrrelevant(f) {
      WholeIsMore(f);
    }
    if WholeAlone(f) {
      AloneIsMore(f);
    }
    if NoHandover(f) {
      var order :| Complete(f, order) && Finished(f, Play(f, order).w.nas.records, Full(f));
      NoHandoverOpen(f, order);
      WholeOrderExactly(f, Full(f));
      WholeCompanyExactly(f, Full(f));
    }
  }

  /** Rules that anything obstructs, certificate rows included. */
  lemma HeldUpWhole(f: Fleet)
    requires Team(f) && OnlyStaleLeave(f) && Orderly(f)
    requires NobodyHeldUp(f) || Uncontested(f, Later(f)) || NoneReturns(f)
    ensures WholeOrderIrrelevant(f) <==> NobodyHeldUp(f) && Uncontested(f, Later(f)) && NoRobbery(f, Later(f))
    ensures WholeAlone(f) <==> NobodyHeldUp(f) && Uncontested(f, Later(f)) && NoLoss(f, Later(f))
  {
    HeldUpExactly(f);
    if WholeOrderIrrelevant(f) {
      WholeIsMore(f);
    }
    if WholeAlone(f) {
      AloneIsMore(f);
    }
    if NobodyHeldUp(f) {
      LaterCaps(f);
      WholeOrderExactly(f, Later(f));
      WholeCompanyExactly(f, Later(f));
    }
  }
}
