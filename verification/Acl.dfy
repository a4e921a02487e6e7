/** Access control profiles and the cache of their identifiers. */
module Acl {
  import opened Util
  import opened Dsm
  import opened Client

  const ACL_TTL := 300

  /** One expiry time is shared by all names. */
  datatype AclCache = AclCache(ids: map<string, string>, at: int)

  datatype Resolved = Resolved(w: World, cache: AclCache, res: Result<string>)

  /** The first profile with the name. */
  function Lookup(profiles: seq<AclProfile>, name: string): Option<string> {
    if profiles == [] then None
    else if profiles[0].name == name then Some(profiles[0].uuid)
    else Lookup(profiles[1..], name)
  }

  /** `id` is what the first profile of the name in list order has for its UUID. */
  predicate ListedAs(profiles: seq<AclProfile>, name: string, id: string) {
    exists i | 0 <= i < |profiles| :: FirstListed(profiles, name, i) && profiles[i].uuid == id
  }

  predicate FirstListed(profiles: seq<AclProfile>, name: string, i: nat)
    requires i < |profiles|
  {
    profiles[i].name == name && forall j | 0 <= j < i :: profiles[j].name != name
  }

  lemma {:induction false} LookupExactly(profiles: seq<AclProfile>, name: string)
    ensures forall id :: Lookup(profiles, name) == Some(id) <==> ListedAs(profiles, name, id)
    ensures Lookup(profiles, name).None? <==> forall p | p in profiles :: p.name != name
  {
    if profiles != [] {
      var rest := profiles[1..];
      LookupExactly(rest, name);
      forall id ensures Lookup(profiles, name) == Some(id) <==> ListedAs(profiles, name, id) {
        if profiles[0].name != name {
          ListedBehind(profiles, name, id);
        } else {
          assert FirstListed(profiles, name, 0);
          assert forall i | 0 < i < |profiles| :: !FirstListed(profiles, name, i);
        }
      }
      assert profiles == [profiles[0]] + rest;
    }
  }

  lemma ListedBehind(profiles: seq<AclProfile>, name: string, id: string)
    requires profiles != [] && profiles[0].name != name
    ensures ListedAs(profiles, name, id) <==> ListedAs(profiles[1..], name, id)
  {
    var rest := profiles[1..];
    if i :| 0 <= i < |rest| && FirstListed(rest, name, i) && rest[i].uuid == id {
      assert forall j | 0 < j <= i :: profiles[j] == rest[j - 1];
      assert FirstListed(profiles, name, i + 1);
    }
    if i :| 0 <= i < |profiles| && FirstListed(profiles, name, i) && profiles[i].uuid == id {
      assert forall j | 0 <= j < i - 1 :: rest[j] == profiles[j + 1];
      assert FirstListed(rest, name, i - 1);
    }
  }

  function GetACLProfileID(w: World, name: string): Did<string> {
    if name == "" then Did(w, Ok(""))
    else
      var p := Post(w, ListAcls);
      match p.reply
      case Failure(f) => Did(p.w, Err(f))
      case Dead => Did(p.w, Stopped)
      case Data(answer) =>
        if !answer.Acls? then Did(p.w, Err(Unparseable))
        else
          match Lookup(answer.acls, name)
          case Some(id) => Did(p.w, Ok(id))
          case None => Did(p.w, Err(ProfileNotFound))
  }

  predicate Hit(w: World, cache: AclCache, name: string) {
    w.now - cache.at < ACL_TTL && name in cache.ids
  }

  function ResolveACLProfile(w: World, cache: AclCache, name: string): Resolved {
    if Hit(w, cache, name) then Resolved(w, cache, Ok(cache.ids[name]))
    else
      var g := GetACLProfileID(w, name);
      if g.res.Ok? then Resolved(g.w, AclCache(cache.ids[name := g.res.value], g.w.now), g.res)
      else Resolved(g.w, cache, g.res)
  }

  /** Resolving a profile reads DSM and nothing more; a fetched identifier is the one
      DSM lists for the name. No name is no profile, and on a healthy network a profile is
      found exactly when it is listed. */
  lemma GetACLEffect(w: World, name: string)
    ensures
      var g := GetACLProfileID(w, name);
      && OnlyRead(w, g.w)
      && (g.res.Ok? && name != "" ==>
            ListedAs(w.nas.aclProfiles, name, g.res.value) && Lookup(w.nas.aclProfiles, name) == Some(g.res.value))
      && (name == "" ==> g == Did(w, Ok("")))
      && (w.script == [] && name != "" ==>
            g.w.script == [] && (g.res.Ok? <==> exists p | p in w.nas.aclProfiles :: p.name == name))
  {
    PostEffect(w, ListAcls);
    LookupExactly(w.nas.aclProfiles, name);
    if w.script == [] {
      PostHealthy(w, ListAcls);
    }
    var w' := Post(w, ListAcls).w;
    LogWeaken(w.log, w'.log, x => Arrived(w.nas, w'.nas, ListAcls, x), x => Read(w.nas.records, x));
  }

  /** The cache is asked first: an identifier is taken from it, and nothing is sent, exactly
      when it holds the name and was last filled less than 300 seconds ago. Otherwise DSM is
      asked, and an answer is kept, under the time it came at. */
  lemma CacheFirst(w: World, cache: AclCache, name: string)
    ensures
      var r := ResolveACLProfile(w, cache, name);
      var g := GetACLProfileID(w, name);
      if name in cache.ids && w.now - cache.at < 300 then r == Resolved(w, cache, Ok(cache.ids[name]))
      else r == Resolved(g.w, if g.res.Ok? then AclCache(cache.ids[name := g.res.value], g.w.now) else cache, g.res)
  {
  }

  // ------------------------------------------------------------------ history

  /** A successful fetch: the name, the answer, the time, and DSM's table then. */
  datatype Fetch = Fetch(name: string, id: string, at: int, table: seq<AclProfile>)

  datatype Cached = Cached(w: World, cache: AclCache, fetches: seq<Fetch>)

  datatype AclAction =
    | Resolve(name: string)
    | Elapse(seconds: nat)                          // time passes
    | Retable(profiles: seq<AclProfile>)       // the profile table changes

  function Act(s: Cached, a: AclAction): Cached {
    match a
    case Elapse(seconds) => s.(w := s.w.(now := s.w.now + seconds))
    case Retable(ps) => s.(w := s.w.(nas := s.w.nas.(aclProfiles := ps)))
    case Resolve(name) =>
      var r := ResolveACLProfile(s.w, s.cache, name);
      if Hit(s.w, s.cache, name) || !r.res.Ok? then Cached(r.w, r.cache, s.fetches)
      else Cached(r.w, r.cache, s.fetches + [Fetch(name, r.res.value, r.w.now, s.w.nas.aclProfiles)])
  }

  function Run(s: Cached, actions: seq<AclAction>): Cached {
    if actions == [] then s else Act(Run(s, actions[..|actions| - 1]), actions[|actions| - 1])
  }

  predicate Fetched(f: Fetch, name: string, id: string) {
    f.name == name && f.id == id && (name == "" || Lookup(f.table, name) == Some(id))
  }

  /** Every cached identifier came from a fetch of that name, and the shared time is
      the time of the last fetch. */
  ghost predicate CacheInv(s: Cached) {
    && (forall n | n in s.cache.ids :: exists f | f in s.fetches :: Fetched(f, n, s.cache.ids[n]))
    && (s.fetches != [] ==>
          var last := s.fetches[|s.fetches| - 1];
          && s.cache.at == last.at
          && last.name in s.cache.ids && Fetched(last, last.name, s.cache.ids[last.name]))
    && (forall f | f in s.fetches :: f.at <= s.w.now && f.name in s.cache.ids)
  }

  lemma {:induction false} PostTime(w: World, req: Request)
    ensures w.now <= Post(w, req).w.now
    decreases |w.script|
  {
    var step := Attempt(w, req);
    if step.Again? { PostTime(step.w, req); }
  }

  lemma FetchKeeps(s: Cached, w': World, f: Fetch)
    requires CacheInv(s) && s.w.now <= w'.now == f.at && Fetched(f, f.name, f.id)
    ensures CacheInv(Cached(w', AclCache(s.cache.ids[f.name := f.id], f.at), s.fetches + [f]))
  {
    var fetches := s.fetches + [f];
    var ids := s.cache.ids[f.name := f.id];
    assert fetches[|s.fetches|] == f;
    forall n | n in ids ensures exists g | g in fetches :: Fetched(g, n, ids[n]) {
      if n == f.name {
        assert f in fetches;
      } else {
        var g :| g in s.fetches && Fetched(g, n, s.cache.ids[n]);
        assert g in fetches;
      }
    }
  }

  lemma ActKeeps(s: Cached, a: AclAction)
    requires CacheInv(s)
    ensures CacheInv(Act(s, a))
  {
    if a.Resolve? {
      PostTime(s.w, ListAcls);
      GetACLEffect(s.w, a.name);
      var g := GetACLProfileID(s.w, a.name);
      if !Hit(s.w, s.cache, a.name) && g.res.Ok? {
        FetchKeeps(s, g.w, Fetch(a.name, g.res.value, g.w.now, s.w.nas.aclProfiles));
      }
    }
  }

  lemma {:induction false} RunKeeps(s: Cached, actions: seq<AclAction>)
    requires CacheInv(s)
    ensures CacheInv(Run(s, actions))
  {
    if actions != [] {
      RunKeeps(s, actions[..|actions| - 1]);
      ActKeeps(Run(s, actions[..|actions| - 1]), actions[|actions| - 1]);
    }
  }

  /** In every run from an empty cache, whatever is returned for a name was listed by
      DSM for that name at this or an earlier fetch. */
  lemma CacheReturnsFetched(w: World, actions: seq<AclAction>, name: string)
    ensures
      var s := Run(Cached(w, AclCache(map[], 0), []), actions);
      var r := ResolveACLProfile(s.w, s.cache, name);
      r.res.Ok? ==> exists f | f in Act(s, Resolve(name)).fetches :: Fetched(f, name, r.res.value)
  {
    var s0 := Cached(w, AclCache(map[], 0), []);
    RunKeeps(s0, actions);
    var s := Run(s0, actions);
    ActKeeps(s, Resolve(name));
    var t := Act(s, Resolve(name));
    var r := ResolveACLProfile(s.w, s.cache, name);
    if r.res.Ok? {
      assert name in t.cache.ids && t.cache.ids[name] == r.res.value;
    }
  }

  /** While DSM keeps listing one identifier for a name, the cache answers as a direct
      lookup does. */
  lemma CacheRefinesLookup(w: World, actions: seq<AclAction>, name: string, id: string)
    requires name != ""
    requires
      var s := Run(Cached(w, AclCache(map[], 0), []), actions);
      && Lookup(s.w.nas.aclProfiles, name) == Some(id)
      && forall f | f in s.fetches && f.name == name :: Lookup(f.table, name) == Some(id)
    ensures
      var s := Run(Cached(w, AclCache(map[], 0), []), actions);
      var r := ResolveACLProfile(s.w, s.cache, name);
      r.res.Ok? ==> r.res.value == id
  {
    var s0 := Cached(w, AclCache(map[], 0), []);
    RunKeeps(s0, actions);
    GetACLEffect(Run(s0, actions).w, name);
  }

  /** A hit is always covered by a fetch younger than the time to live, but of some name:
      when that last fetch was for the same name, the hit repeats it. */
  lemma HitIsCovered(w: World, actions: seq<AclAction>, name: string)
    requires
      var s := Run(Cached(w, AclCache(map[], 0), []), actions);
      Hit(s.w, s.cache, name)
    ensures
      var s := Run(Cached(w, AclCache(map[], 0), []), actions);
      && s.fetches != []
      && var last := s.fetches[|s.fetches| - 1];
         && s.w.now - last.at < ACL_TTL
         && (last.name == name ==> Fetched(last, name, s.cache.ids[name]))
  {
    var s0 := Cached(w, AclCache(map[], 0), []);
    RunKeeps(s0, actions);
    var s := Run(s0, actions);
    var f :| f in s.fetches && Fetched(f, name, s.cache.ids[name]);
  }

  /** So with one name in use a hit is fresh. */
  lemma OneNameIsFresh(w: World, actions: seq<AclAction>, name: string)
    requires
      var s := Run(Cached(w, AclCache(map[], 0), []), actions);
      Hit(s.w, s.cache, name) && forall f | f in s.fetches :: f.name == name
    ensures
      var s := Run(Cached(w, AclCache(map[], 0), []), actions);
      exists f | f in s.fetches :: Fetched(f, name, s.cache.ids[name]) && s.w.now - f.at < ACL_TTL
  {
    HitIsCovered(w, actions, name);
    var s := Run(Cached(w, AclCache(map[], 0), []), actions);
    var last := s.fetches[|s.fetches| - 1];
    assert last in s.fetches;
  }

  /** With two names the bound fails: fetching one renews the time of the other. */
  lemma TwoNamesGoStale(w: World, a: string, b: string)
    requires w.script == [] && a != "" && b != "" && a != b
    requires Lookup(w.nas.aclProfiles, a).Some? && Lookup(w.nas.aclProfiles, b).Some?
    ensures
      var s := Run(Cached(w, AclCache(map[], 0), []), [Resolve(a), Elapse(299), Resolve(b), Elapse(299)]);
      && Hit(s.w, s.cache, a)
      && forall f | f in s.fetches && f.name == a :: s.w.now - f.at >= ACL_TTL
  {
    var s0 := Cached(w, AclCache(map[], 0), []);
    RunFour(s0, Resolve(a), Elapse(299), Resolve(b), Elapse(299));
    TwoFetches(s0, a, Lookup(w.nas.aclProfiles, a).value, b, Lookup(w.nas.aclProfiles, b).value);
  }

  // ---------------------------------------------------------- the names in use

  predicate Uses(actions: seq<AclAction>, names: set<string>) {
    forall a | a in actions :: a.Resolve? ==> a.name in names
  }

  lemma {:induction false} FetchesAreUsed(w: World, actions: seq<AclAction>, names: set<string>)
    requires Uses(actions, names)
    ensures forall f | f in Run(Cached(w, AclCache(map[], 0), []), actions).fetches :: f.name in names
  {
    if actions != [] {
      FetchesAreUsed(w, actions[..|actions| - 1], names);
      assert actions[|actions| - 1] in actions;
    }
  }

  /** A hit for the name repeats a fetch of it that is younger than the time to live. */
  ghost predicate FreshHit(s: Cached, name: string) {
    Hit(s.w, s.cache, name) ==>
      exists f | f in s.fetches :: Fetched(f, name, s.cache.ids[name]) && s.w.now - f.at < ACL_TTL
  }

  ghost predicate AlwaysFresh(w: World, names: set<string>) {
    forall actions, name | Uses(actions, names) :: FreshHit(Run(Cached(w, AclCache(map[], 0), []), actions), name)
  }

  /** Every hit of every run is fresh exactly when no two listed names are in use. */
  lemma FreshExactlyForOneName(w: World, names: set<string>)
    requires w.script == []
    requires forall n | n in names :: n != "" && Lookup(w.nas.aclProfiles, n).Some?
    ensures AlwaysFresh(w, names) <==> forall a, b | a in names && b in names :: a == b
  {
    if a, b :| a in names && b in names && a != b {
      var actions := [Resolve(a), Elapse(299), Resolve(b), Elapse(299)];
      TwoNamesGoStale(w, a, b);
      assert Uses(actions, names) && !FreshHit(Run(Cached(w, AclCache(map[], 0), []), actions), a);
    } else {
      forall actions, name | Uses(actions, names)
        ensures FreshHit(Run(Cached(w, AclCache(map[], 0), []), actions), name)
      {
        OneInUseIsFresh(w, actions, names, name);
      }
    }
  }

  lemma OneInUseIsFresh(w: World, actions: seq<AclAction>, names: set<string>, name: string)
    requires Uses(actions, names) && forall a, b | a in names && b in names :: a == b
    ensures FreshHit(Run(Cached(w, AclCache(map[], 0), []), actions), name)
  {
    var s0 := Cached(w, AclCache(map[], 0), []);
    var s := Run(s0, actions);
    FetchesAreUsed(w, actions, names);
    RunKeeps(s0, actions);
    if Hit(s.w, s.cache, name) {
      var f :| f in s.fetches && Fetched(f, name, s.cache.ids[name]);
      OneNameIsFresh(w, actions, name);
    }
  }

  lemma TwoFetches(s0: Cached, a: string, ida: string, b: string, idb: string)
    requires s0.w.script == [] && s0.cache.ids == map[] && s0.fetches == []
    requires a != "" && b != "" && a != b
    requires Lookup(s0.w.nas.aclProfiles, a) == Some(ida) && Lookup(s0.w.nas.aclProfiles, b) == Some(idb)
    ensures
      var s := Act(Act(Act(Act(s0, Resolve(a)), Elapse(299)), Resolve(b)), Elapse(299));
      && Hit(s.w, s.cache, a)
      && forall f | f in s.fetches && f.name == a :: s.w.now - f.at >= ACL_TTL
  {
    FetchHealthy(s0, a, ida);
    var s2 := Act(Act(s0, Resolve(a)), Elapse(299));
    FetchHealthy(s2, b, idb);
    var s3 := Act(s2, Resolve(b));
    assert s3.fetches ==
      [Fetch(a, ida, s0.w.now, s0.w.nas.aclProfiles), Fetch(b, idb, s0.w.now + 299, s0.w.nas.aclProfiles)];
  }

  lemma RunFour(s: Cached, a: AclAction, b: AclAction, c: AclAction, d: AclAction)
    ensures Run(s, [a, b, c, d]) == Act(Act(Act(Act(s, a), b), c), d)
  {
    RunSnoc(s, [], a);
    RunSnoc(s, [] + [a], b);
    RunSnoc(s, [] + [a] + [b], c);
    RunSnoc(s, [] + [a] + [b] + [c], d);
    assert [] + [a] + [b] + [c] + [d] == [a, b, c, d];
  }

  lemma RunSnoc(s: Cached, actions: seq<AclAction>, a: AclAction)
    ensures Run(s, actions + [a]) == Act(Run(s, actions), a)
  {
    assert (actions + [a])[..|actions|] == actions;
  }

  lemma FetchHealthy(s: Cached, name: string, id: string)
    requires s.w.script == [] && name != "" && name !in s.cache.ids
    requires Lookup(s.w.nas.aclProfiles, name) == Some(id)
    ensures
      var t := Act(s, Resolve(name));
      && t.w.script == [] && t.w.nas == s.w.nas && t.w.now == s.w.now
      && t.cache == AclCache(s.cache.ids[name := id], s.w.now)
      && t.fetches == s.fetches + [Fetch(name, id, s.w.now, s.w.nas.aclProfiles)]
  {
    PostHealthy(s.w, ListAcls);
    HealthyTime(s.w, ListAcls);
  }

  lemma HealthyTime(w: World, req: Request)
    requires w.script == []
    ensures Post(w, req).w.now == w.now
  {
  }

  // ----------------------------------------------------------------- methods

  method FindProfile(profiles: seq<AclProfile>, name: string) returns (r: Option<string>)
    ensures r == Lookup(profiles, name)
  {
    var i := 0;
    while i < |profiles|
      invariant 0 <= i <= |profiles|
      invariant Lookup(profiles, name) == Lookup(profiles[i..], name)
    {
      assert profiles[i..][1..] == profiles[i + 1..];
      if profiles[i].name == name {
        return Some(profiles[i].uuid);
      }
      i := i + 1;
    }
    r := None;
  }

  method DoGetACLProfileID(c: Client, name: string) returns (res: Result<string>)
    modifies c, c.net
    ensures Did(c.Snapshot(), res) == GetACLProfileID(old(c.Snapshot()), name)
  {
    if name == "" {
      return Ok("");
    }
    var reply := c.DoPost(ListAcls);
    match reply
    case Failure(f) => res := Err(f);
    case Dead => res := Stopped;
    case Data(answer) =>
      if !answer.Acls? {
        return Err(Unparseable);
      }
      var id := FindProfile(answer.acls, name);
      res := if id.Some? then Ok(id.value) else Err(ProfileNotFound);
  }
}
