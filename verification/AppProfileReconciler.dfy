/** ReconcileEverything of pkg/appprofile/reconcile.go: one global pass over a
    remote store whose update calls can fail at any point. */
module AppProfileReconciler {
  import opened Wrappers
  import opened Text
  import opened AppProfileSpec
  import T = AppProfileTheorems

  /** A mutable set of strings, as the golang-set package provides. */
  class StringSet {
    var elems: set<string>

    constructor ()
      ensures elems == {}
    {
      elems := {};
    }

    constructor FromSlice(list: seq<string>)
      ensures elems == Items(list)
    {
      elems := Items(list);
    }

    method Add(x: string)
      modifies this
      ensures elems == old(elems) + {x}
    {
      elems := elems + {x};
    }

    /** Union allocates: the result shares no storage with its operands. */
    method Union(other: StringSet) returns (union: StringSet)
      ensures fresh(union) && union.elems == elems + other.elems
    {
      union := new StringSet();
      union.elems := elems + other.elems;
    }

    /** ToSlice, and ranging over Iter: every element once, in some order. */
    method ToSlice() returns (list: seq<string>)
      ensures multiset(list) == multiset(elems)
    {
      list := [];
      var rest := elems;
      while rest != {}
        invariant rest <= elems && multiset(list) + multiset(rest) == multiset(elems)
        decreases |rest|
      {
        var x :| x in rest;
        list := list + [x];
        rest := rest - {x};
      }
    }
  }

  /** A Go map from names to sets, filled in place. `Sets` owns its sets. */
  class SetIndex {
    var index: map<string, StringSet>
    ghost var Sets: set<StringSet>

    /** Distinct keys never share a set. */
    ghost predicate Valid()
      reads this
    {
      && (forall k | k in index :: index[k] in Sets)
      && (forall k, l | k in index && l in index && k != l :: index[k] != index[l])
    }

    ghost function At(key: string): set<string>
      requires Valid()
      reads this, Sets
    {
      if key in index then index[key].elems else {}
    }

    constructor ()
      ensures Valid() && index == map[] && Sets == {}
    {
      index := map[];
      Sets := {};
    }

    /** Go reads a missing key as a nil set; the callers then store a new one. */
    method Ensure(key: string)
      requires Valid()
      modifies this
      ensures Valid() && key in index && fresh(Sets - old(Sets))
      ensures forall k :: At(k) == old(At(k))
    {
      if key !in index {
        var empty := new StringSet();
        index := index[key := empty];
        Sets := Sets + {empty};
      }
    }

    /** Adds another index's set to ours under `key`. The union is a new set, so
        the two indexes never come to share one. */
    method AddAll(key: string, otherKey: string, other: SetIndex)
      requires Valid() && other.Valid() && this != other && Sets !! other.Sets
      modifies this
      ensures Valid() && fresh(Sets - old(Sets))
      ensures forall k :: At(k) == old(At(k)) + if k == key then other.At(otherKey) else {}
    {
      Ensure(key);
      if otherKey in other.index {
        var union := index[key].Union(other.index[otherKey]);
        index := index[key := union];
        Sets := Sets + {union};
      }
    }
  }

  method UpdateProfileToClustersMap(clustName: string, commaSeparatedProfileNames: string, profileToClusters: SetIndex)
    requires profileToClusters.Valid()
    modifies profileToClusters, profileToClusters.Sets
    ensures profileToClusters.Valid()
    ensures fresh(profileToClusters.Sets - old(profileToClusters.Sets))
    ensures forall p :: profileToClusters.At(p) == old(profileToClusters.At(p))
                        + if p in Listed(commaSeparatedProfileNames) then {clustName} else {}
  {
    if commaSeparatedProfileNames == "" {
      return;
    }
    var profiles := Split(commaSeparatedProfileNames, ',');
    for i := 0 to |profiles|
      invariant profileToClusters.Valid()
      invariant fresh(profileToClusters.Sets - old(profileToClusters.Sets))
      invariant forall p :: profileToClusters.At(p) == old(profileToClusters.At(p))
                            + if p in profiles[..i] then {clustName} else {}
    {
      var profile := profiles[i];
      profileToClusters.Ensure(profile);
      profileToClusters.index[profile].Add(clustName);
      assert profiles[..i + 1] == profiles[..i] + [profile];
    }
    assert profiles[..|profiles|] == profiles;
  }

  // ------------------------------------------------------------ counting

  lemma {:induction false} OneClusterLess(cs: seq<ArgoCluster>, i: nat, c: ArgoCluster, arlon: map<string, ClusterApp>)
    requires i < |cs| && !ClusterSynced(cs[i], arlon) && ClusterSynced(c, arlon)
    ensures PendingClusters(cs[i := c], arlon) + 1 == PendingClusters(cs, arlon)
  {
    if i == 0 {
      assert cs[i := c][1..] == cs[1..];
    } else {
      OneClusterLess(cs[1..], i - 1, c, arlon);
      assert cs[i := c][1..] == cs[1..][i - 1 := c];
    }
  }

  lemma {:induction false} OneProfileLess(ps: seq<AppProfile>, i: nat, p: AppProfile, valid: set<string>)
    requires i < |ps| && !ProfileSynced(ps[i], valid) && ProfileSynced(p, valid)
    ensures PendingProfiles(ps[i := p], valid) + 1 == PendingProfiles(ps, valid)
  {
    if i == 0 {
      assert ps[i := p][1..] == ps[1..];
    } else {
      OneProfileLess(ps[1..], i - 1, p, valid);
      assert ps[i := p][1..] == ps[1..][i - 1 := p];
    }
  }

  lemma {:induction false} OneAppLess(sets: seq<AppSet>, i: nat, a: AppSet, s: Snapshot)
    requires i < |sets| && !AppSynced(sets[i], s) && AppSynced(a, s)
    ensures PendingApps(sets[i := a], s) + 1 == PendingApps(sets, s)
  {
    if i == 0 {
      assert sets[i := a][1..] == sets[1..];
    } else {
      OneAppLess(sets[1..], i - 1, a, s);
      assert sets[i := a][1..] == sets[1..][i - 1 := a];
    }
  }

  function ServerIn(servers: map<string, string>, name: string): string {
    if name in servers then servers[name] else ""
  }

  /** The bookkeeping of one phase: effective writes are exactly the objects
      that got in sync, and at most one attempt had no effect. */
  predicate Accounted(writes: int, attempts: int, ok: bool, before: nat, after: nat) {
    && writes >= 0 && writes + after == before
    && writes <= attempts <= writes + 1 && attempts <= before
    && (if ok then attempts == writes else attempts > 0)
  }

  lemma MoreUsers(profile: string, clusters: seq<ArgoCluster>, c: ArgoCluster, arlon: map<string, ClusterApp>)
    ensures UsersOf(profile, clusters + [c], arlon)
         == UsersOf(profile, clusters, arlon) + if profile in Listed(Effective(c, arlon)) then {c.name} else {}
  {
    var more := clusters + [c];
    forall n ensures n in UsersOf(profile, more, arlon) <==>
        n in UsersOf(profile, clusters, arlon) + if profile in Listed(Effective(c, arlon)) then {c.name} else {}
    {
      if n in UsersOf(profile, clusters, arlon) {
        var d :| d in clusters && profile in Listed(Effective(d, arlon)) && d.name == n;
        assert d in more;
      }
      assert c in more;
    }
  }

  lemma NoUsersYet(arlon: map<string, ClusterApp>)
    ensures forall p :: UsersOf(p, [], arlon) == {}
  {
  }

  /** One more listed cluster, as the profile index sees it. */
  lemma OneMoreCluster(clusters: seq<ArgoCluster>, k: nat, arlon: map<string, ClusterApp>)
    requires k < |clusters|
    ensures forall p ::
              UsersOf(p, clusters[..k + 1], arlon)
              == UsersOf(p, clusters[..k], arlon)
                 + if p in Listed(Effective(clusters[k], arlon)) then {clusters[k].name} else {}
  {
    assert clusters[..k + 1] == clusters[..k] + [clusters[k]];
    forall p {
      MoreUsers(p, clusters[..k], clusters[k], arlon);
    }
  }

  /** The union of the users of the profiles that name an app. */
  ghost function Reached(app: string, profiles: seq<AppProfile>, users: string -> set<string>): set<string> {
    if profiles == [] then {}
    else
      var last := profiles[|profiles| - 1];
      Reached(app, profiles[..|profiles| - 1], users) + if app in last.appNames then users(last.name) else {}
  }

  /** The app index holds, for every existing app, what the profiles give it. */
  ghost predicate Gathered(appToClusters: SetIndex, valid: set<string>, profiles: seq<AppProfile>,
                           users: string -> set<string>)
    requires appToClusters.Valid()
    reads appToClusters, appToClusters.Sets
  {
    forall a | a in valid :: appToClusters.At(a) == Reached(a, profiles, users)
  }

  lemma {:induction false} ReachedHas(app: string, profiles: seq<AppProfile>, users: string -> set<string>, n: string)
    ensures n in Reached(app, profiles, users)
       <==> exists p :: p in profiles && app in p.appNames && n in users(p.name)
  {
    if profiles != [] {
      var rest, last := profiles[..|profiles| - 1], profiles[|profiles| - 1];
      ReachedHas(app, rest, users, n);
      assert profiles == rest + [last];
      assert last in profiles;
    }
  }

  lemma {:induction false} ReachedIsTargets(app: string, s: Snapshot, users: string -> set<string>)
    requires app in ValidNames(s.appSets)
    requires forall p :: users(p) == UsersOf(p, s.clusters, ArlonIndex(s.clusterApps))
    ensures Reached(app, s.profiles, users) == Targets(app, s)
  {
    var arlon := ArlonIndex(s.clusterApps);
    forall n ensures n in Reached(app, s.profiles, users) <==> n in Targets(app, s) {
      ReachedHas(app, s.profiles, users, n);
      if n in Targets(app, s) {
        var c, p :| c in s.clusters && p in s.profiles && app in p.appNames
                    && p.name in Listed(Effective(c, arlon)) && n == c.name;
        assert n in users(p.name);
      }
      if p :| p in s.profiles && app in p.appNames && n in users(p.name) {
        var c :| c in s.clusters && p.name in Listed(Effective(c, arlon)) && n == c.name;
      }
    }
  }

  lemma SameMembers(names: seq<string>, items: set<string>)
    requires multiset(names) == multiset(items)
    ensures Items(names) == items
  {
    assert forall n :: n in names <==> n in multiset(names);
    assert forall n :: n in items <==> n in multiset(items);
  }

  function ElementsFor(names: seq<string>, clusters: seq<ArgoCluster>): seq<Element> {
    seq(|names|, i requires 0 <= i < |names| => NewElement(names[i], ServerOf(names[i], clusters)))
  }

  lemma {:induction false} ElementsEnumerate(names: seq<string>, targets: set<string>, clusters: seq<ArgoCluster>)
    requires multiset(names) == multiset(targets)
    ensures multiset(ElementsFor(names, clusters)) == multiset(FreshElements(targets, clusters))
  {
    if names == [] {
      assert |targets| == |multiset(targets)| == 0;
    } else {
      var n, rest := names[0], names[1..];
      Peel(names, targets);
      ElementsEnumerate(rest, targets - {n}, clusters);
      OneMoreElement(n, targets, clusters);
      assert ElementsFor(names, clusters) == [NewElement(n, ServerOf(n, clusters))] + ElementsFor(rest, clusters);
    }
  }

  lemma Peel(names: seq<string>, targets: set<string>)
    requires names != [] && multiset(names) == multiset(targets)
    ensures names[0] in targets && multiset(names[1..]) == multiset(targets - {names[0]})
  {
    var n := names[0];
    assert names == [n] + names[1..];
    assert n in multiset(targets);
    assert multiset(targets - {n}) == multiset(targets) - multiset{n};
  }

  lemma {:induction false} OneMoreElement(n: string, targets: set<string>, clusters: seq<ArgoCluster>)
    requires n in targets
    ensures multiset(FreshElements(targets, clusters))
         == multiset(FreshElements(targets - {n}, clusters)) + multiset{NewElement(n, ServerOf(n, clusters))}
  {
    var e, fewer := NewElement(n, ServerOf(n, clusters)), targets - {n};
    assert FreshElements(targets, clusters) == FreshElements(fewer, clusters) + {e};
    forall m | m in fewer ensures NewElement(m, ServerOf(m, clusters)) != e {
      assert NewElement(m, ServerOf(m, clusters)).fields[CLUSTER_NAME] == JString(m);
      assert e.fields[CLUSTER_NAME] == JString(n);
    }
    assert e !in FreshElements(fewer, clusters);
  }

  /** The names read from a generator, up to the first element that does not
      decode; keys other than cluster_name and non-string values are skipped. */
  method DecodeClusters(elems: seq<Element>) returns (beforeClusters: StringSet)
    ensures fresh(beforeClusters) && beforeClusters.elems == DecodedNames(elems)
  {
    beforeClusters := new StringSet();
    for i := 0 to |elems|
      invariant fresh(beforeClusters)
      invariant beforeClusters.elems + DecodedNames(elems[i..]) == DecodedNames(elems)
    {
      var elem := elems[i];
      if elem.Malformed? {
        assert DecodedNames(elems[i..]) == {};
        break;
      }
      assert elems[i..][1..] == elems[i + 1..];
      if CLUSTER_NAME in elem.fields && elem.fields[CLUSTER_NAME].JString? {
        beforeClusters.Add(elem.fields[CLUSTER_NAME].s);
      }
    }
  }

  /** The new element list: one element per cluster of the set. */
  method EncodeClusters(afterClusters: StringSet, clustNameToServer: map<string, string>,
                        ghost clusters: seq<ArgoCluster>)
    returns (newElems: seq<Element>)
    requires forall n :: ServerIn(clustNameToServer, n) == ServerOf(n, clusters)
    ensures multiset(newElems) == multiset(FreshElements(afterClusters.elems, clusters))
  {
    var names := afterClusters.ToSlice();
    newElems := [];
    for i := 0 to |names|
      invariant newElems == ElementsFor(names[..i], clusters)
    {
      newElems := newElems + [NewElement(names[i], ServerIn(clustNameToServer, names[i]))];
    }
    assert names[..|names|] == names;
    ElementsEnumerate(names, afterClusters.elems, clusters);
  }

  lemma {:induction false} SamePendingApps(sets: seq<AppSet>, s: Snapshot, t: Snapshot)
    requires forall app :: Targets(app, t) == Targets(app, s)
    ensures PendingApps(sets, t) == PendingApps(sets, s)
  {
    if sets != [] {
      SamePendingApps(sets[1..], s, t);
    }
  }

  /** Later snapshots of a pass are counted against its first one. */
  lemma {:induction false} SumPending(s: Snapshot, t: Snapshot)
    requires Steps(s, t)
    ensures ValidNames(t.appSets) == ValidNames(s.appSets)
    ensures Pending(t) == PendingClusters(t.clusters, ArlonIndex(s.clusterApps))
                          + PendingProfiles(t.profiles, ValidNames(s.appSets)) + PendingApps(t.appSets, s)
  {
    T.InputsPreserved(s, t);
    SamePendingApps(t.appSets, s, t);
  }

  /** What one phase of a pass spent, and whether it went through. */
  datatype Phase = Phase(writes: nat, attempts: nat, ok: bool)

  const SKIPPED := Phase(0, 0, true)

  ghost predicate Settled(p: Phase, before: nat, after: nat) {
    Accounted(p.writes, p.attempts, p.ok, before, after)
  }

  /** The three phases, one after the other, make a pass. A phase that was never
      reached is SKIPPED and left its list alone. */
  lemma {:induction false} PhasesMakePass(s: Snapshot, t: Snapshot, done: bool, p1: Phase, p2: Phase, p3: Phase)
    requires Steps(s, t)
    requires Settled(p1, PendingClusters(s.clusters, ArlonIndex(s.clusterApps)),
                     PendingClusters(t.clusters, ArlonIndex(s.clusterApps)))
    requires Settled(p2, PendingProfiles(s.profiles, ValidNames(s.appSets)),
                     PendingProfiles(t.profiles, ValidNames(s.appSets)))
    requires Settled(p3, PendingApps(s.appSets, s), PendingApps(t.appSets, s))
    requires (!p1.ok ==> p2 == SKIPPED) && (!p1.ok || !p2.ok ==> p3 == SKIPPED)
    requires done ==> p1.ok && p2.ok && p3.ok
    requires t.profiles != s.profiles || t.appSets != s.appSets || done ==> ClustersSynced(t)
    requires t.appSets != s.appSets || done ==> forall p | p in t.profiles :: ProfileSynced(p, ValidNames(s.appSets))
    requires done ==> forall a | a in t.appSets :: AppSynced(a, s)
    ensures IsPass(Pass(s, t, done, p1.attempts + p2.attempts + p3.attempts, p1.writes + p2.writes + p3.writes))
  {
    SumPending(s, t);
    T.InputsPreserved(s, t);
    hide PendingClusters, PendingProfiles, PendingApps, ClusterSynced, ProfileSynced, ArlonIndex, ValidNames, Targets,
         Steps;
  }

  lemma NothingSpent(s: Snapshot)
    ensures Steps(s, s)
    ensures forall n: nat :: Settled(SKIPPED, n, n)
  {
  }

  lemma AllReached(s: Snapshot, users: string -> set<string>)
    requires forall p :: users(p) == UsersOf(p, s.clusters, ArlonIndex(s.clusterApps))
    ensures forall a | a in ValidNames(s.appSets) :: Reached(a, s.profiles, users) == Targets(a, s)
  {
    forall a | a in ValidNames(s.appSets) ensures Reached(a, s.profiles, users) == Targets(a, s) {
      ReachedIsTargets(a, s, users);
    }
  }

  /** The Kubernetes and ArgoCD API servers. `faults` decides what each update
      call does; `attempts` counts the calls and `writes` those that took effect. */
  class Store {
    var clusters: seq<ArgoCluster>
    var clusterApps: seq<ClusterApp>
    var appSets: seq<AppSet>
    var profiles: seq<AppProfile>
    var attempts: nat
    var writes: nat
    const faults: nat -> Fault

    constructor (s: Snapshot, faults: nat -> Fault)
      ensures Contents() == s && this.faults == faults && attempts == writes == 0
    {
      clusters, clusterApps, appSets, profiles := s.clusters, s.clusterApps, s.appSets, s.profiles;
      attempts, writes := 0, 0;
      this.faults := faults;
    }

    ghost function Contents(): Snapshot
      reads this
    {
      Snapshot(clusters, clusterApps, appSets, profiles)
    }

    /** The last update call was one that fails. */
    ghost predicate LastFailed()
      reads this
    {
      attempts > 0 && faults(attempts - 1) != Fine
    }

    /** Draws the fate of the next update call. */
    method Attempt() returns (effect: bool, ok: bool)
      modifies this`attempts, this`writes
      ensures attempts == old(attempts) + 1 && writes == old(writes) + if effect then 1 else 0
      ensures ok ==> effect
      ensures !ok ==> LastFailed()
    {
      var fault := faults(attempts);
      effect, ok := fault != Lost, fault == Fine;
      attempts := attempts + 1;
      writes := writes + if effect then 1 else 0;
    }

    method UpdateCluster(i: nat, c: ArgoCluster) returns (ok: bool)
      requires i < |clusters|
      modifies this`clusters, this`attempts, this`writes
      ensures attempts == old(attempts) + 1
      ensures !ok ==> LastFailed()
      ensures || (writes == old(writes) && clusters == old(clusters) && !ok)
              || (writes == old(writes) + 1 && clusters == old(clusters)[i := c])
    {
      var effect;
      effect, ok := Attempt();
      if effect {
        clusters := clusters[i := c];
      }
    }

    method UpdateProfileStatus(i: nat, p: AppProfile) returns (ok: bool)
      requires i < |profiles|
      modifies this`profiles, this`attempts, this`writes
      ensures attempts == old(attempts) + 1
      ensures !ok ==> LastFailed()
      ensures || (writes == old(writes) && profiles == old(profiles) && !ok)
              || (writes == old(writes) + 1 && profiles == old(profiles)[i := p])
    {
      var effect;
      effect, ok := Attempt();
      if effect {
        profiles := profiles[i := p];
      }
    }

    method UpdateAppSet(i: nat, a: AppSet) returns (ok: bool)
      requires i < |appSets|
      modifies this`appSets, this`attempts, this`writes
      ensures attempts == old(attempts) + 1
      ensures !ok ==> LastFailed()
      ensures || (writes == old(writes) && appSets == old(appSets) && !ok)
              || (writes == old(writes) + 1 && appSets == old(appSets)[i := a])
    {
      var effect;
      effect, ok := Attempt();
      if effect {
        appSets := appSets[i := a];
      }
    }

    // ------------------------------------------------------------ phases

    /** The body of the cluster loop, for the k-th listed cluster. */
    method ReconcileCluster(k: nat, arlonClusterMap: map<string, ClusterApp>, profileToClusters: SetIndex)
      returns (ok: bool)
      requires k < |clusters| && arlonClusterMap == ArlonIndex(clusterApps) && profileToClusters.Valid()
      modifies this`clusters, this`attempts, this`writes, profileToClusters, profileToClusters.Sets
      ensures profileToClusters.Valid()
      ensures fresh(profileToClusters.Sets - old(profileToClusters.Sets))
      ensures |clusters| == |old(clusters)| && clusters == old(clusters)[k := clusters[k]]
      ensures ClusterStep(old(clusters)[k], clusters[k], arlonClusterMap)
      ensures ok ==> ClusterSynced(clusters[k], arlonClusterMap)
      ensures ok ==> forall p ::
                profileToClusters.At(p) == old(profileToClusters.At(p))
                + if p in Listed(Effective(old(clusters)[k], arlonClusterMap)) then {old(clusters)[k].name} else {}
      ensures Accounted(writes - old(writes), attempts - old(attempts), ok,
                        PendingClusters(old(clusters), arlonClusterMap), PendingClusters(clusters, arlonClusterMap))
      ensures !ok ==> LastFailed()
    {
      ok := true;
      var argoClust := clusters[k];
      if argoClust.annotations.None? {
        argoClust := argoClust.(annotations := Some(map[]));
      }
      var argoClustAnnotation := Lookup(argoClust.annotations, PROFILES_KEY);
      var dirty := false;
      if argoClust.name !in arlonClusterMap {
        // Possibly an external cluster: its own annotation decides.
        UpdateProfileToClustersMap(argoClust.name, argoClustAnnotation, profileToClusters);
        return;
      }
      var arlonClust := arlonClusterMap[argoClust.name];
      var arlonClustAnnotation := Lookup(arlonClust.annotations, PROFILES_KEY);
      if arlonClustAnnotation != "" {
        if argoClustAnnotation != arlonClustAnnotation {
          argoClust := argoClust.(annotations :=
            Some(argoClust.annotations.value[PROFILES_KEY := arlonClustAnnotation]));
          dirty := true;
        }
      } else if argoClustAnnotation != "" {
        argoClust := argoClust.(annotations := Some(argoClust.annotations.value - {PROFILES_KEY}));
        dirty := true;
      } else {
        return;
      }
      if dirty {
        OneClusterLess(clusters, k, argoClust, arlonClusterMap);
        ok := UpdateCluster(k, argoClust);
        if !ok {
          return;
        }
      }
      UpdateProfileToClustersMap(arlonClust.name, arlonClustAnnotation, profileToClusters);
    }

    method ReconcileClusters(arlonClusterMap: map<string, ClusterApp>, profileToClusters: SetIndex)
      returns (ok: bool, clustNameToServer: map<string, string>)
      requires arlonClusterMap == ArlonIndex(clusterApps)
      requires profileToClusters.Valid() && profileToClusters.index == map[] && profileToClusters.Sets == {}
      modifies this`clusters, this`attempts, this`writes, profileToClusters
      ensures profileToClusters.Valid() && fresh(profileToClusters.Sets)
      ensures |clusters| == |old(clusters)|
      ensures forall i | 0 <= i < |clusters| :: ClusterStep(old(clusters)[i], clusters[i], arlonClusterMap)
      ensures ok ==> forall c | c in clusters :: ClusterSynced(c, arlonClusterMap)
      ensures ok ==> forall p :: profileToClusters.At(p) == UsersOf(p, old(clusters), arlonClusterMap)
      ensures ok ==> forall n :: ServerIn(clustNameToServer, n) == ServerOf(n, old(clusters))
      ensures Accounted(writes - old(writes), attempts - old(attempts), ok,
                        PendingClusters(old(clusters), arlonClusterMap), PendingClusters(clusters, arlonClusterMap))
      ensures !ok ==> LastFailed()
    {
      hide ClusterSynced, SyncCluster, Effective, Listed, ArlonIndex, PendingClusters, UsersOf;
      NoUsersYet(arlonClusterMap);
      clustNameToServer := map[];
      var argoClusters := clusters;
      assert argoClusters[..0] == [];
      for k := 0 to |argoClusters|
        invariant profileToClusters.Valid() && fresh(profileToClusters.Sets)
        invariant |clusters| == |argoClusters| && clusters[k..] == argoClusters[k..]
        invariant forall i | 0 <= i < k :: ClusterStep(argoClusters[i], clusters[i], arlonClusterMap)
        invariant forall i | 0 <= i < k :: ClusterSynced(clusters[i], arlonClusterMap)
        invariant forall p :: profileToClusters.At(p) == UsersOf(p, argoClusters[..k], arlonClusterMap)
        invariant forall n :: ServerIn(clustNameToServer, n) == ServerOf(n, argoClusters[..k])
        invariant Accounted(writes - old(writes), attempts - old(attempts), true,
                            PendingClusters(old(clusters), arlonClusterMap), PendingClusters(clusters, arlonClusterMap))
      {
        var argoClust := argoClusters[k];
        assert argoClust == clusters[k] by {
          assert clusters[k..][0] == argoClusters[k..][0];
        }
        OneMoreCluster(argoClusters, k, arlonClusterMap);
        assert argoClusters[..k + 1][..k] == argoClusters[..k];
        clustNameToServer := clustNameToServer[argoClust.name := argoClust.server];
        ok := ReconcileCluster(k, arlonClusterMap, profileToClusters);
        if !ok {
          return;
        }
      }
      assert argoClusters[..|argoClusters|] == argoClusters;
      ok := true;
    }

    /** The app loop of one profile: sorts its names into invalid ones and apps
        that gain the profile's clusters. Union keeps the two indexes apart. */
    method SortAppNames(prof: AppProfile, validAppNames: StringSet, profileToClusters: SetIndex,
                        appToClusters: SetIndex)
      returns (afterInvalidNames: StringSet)
      requires appToClusters != profileToClusters && appToClusters.Valid() && profileToClusters.Valid()
      requires appToClusters.Sets !! profileToClusters.Sets
      modifies appToClusters
      ensures appToClusters.Valid() && fresh(afterInvalidNames)
      ensures fresh(appToClusters.Sets - old(appToClusters.Sets))
      ensures afterInvalidNames.elems == InvalidOf(prof, validAppNames.elems)
      ensures forall a ::
                appToClusters.At(a) == old(appToClusters.At(a))
                + if a in prof.appNames && a in validAppNames.elems then profileToClusters.At(prof.name) else {}
    {
      afterInvalidNames := new StringSet();
      assert prof.appNames[..0] == [];
      for j := 0 to |prof.appNames|
        invariant appToClusters.Valid() && fresh(afterInvalidNames) && afterInvalidNames !in appToClusters.Sets
        invariant fresh(appToClusters.Sets - old(appToClusters.Sets))
        invariant forall n :: n in afterInvalidNames.elems <==> n in prof.appNames[..j] && n !in validAppNames.elems
        invariant forall a ::
                    appToClusters.At(a) == old(appToClusters.At(a))
                    + if a in prof.appNames[..j] && a in validAppNames.elems
                      then profileToClusters.At(prof.name) else {}
      {
        var appName := prof.appNames[j];
        assert prof.appNames[..j + 1] == prof.appNames[..j] + [appName];
        if appName !in validAppNames.elems {
          afterInvalidNames.Add(appName);
        } else {
          appToClusters.AddAll(appName, prof.name, profileToClusters);
        }
      }
      assert prof.appNames[..|prof.appNames|] == prof.appNames;
    }

    /** The status part of the profile loop, for the k-th listed profile. */
    method ReconcileStatus(k: nat, afterInvalidNames: StringSet, ghost valid: set<string>) returns (ok: bool)
      requires k < |profiles| && afterInvalidNames.elems == InvalidOf(profiles[k], valid)
      modifies this`profiles, this`attempts, this`writes
      ensures |profiles| == |old(profiles)| && profiles == old(profiles)[k := profiles[k]]
      ensures ProfileStep(old(profiles)[k], profiles[k], valid)
      ensures ok ==> ProfileSynced(profiles[k], valid)
      ensures Accounted(writes - old(writes), attempts - old(attempts), ok,
                        PendingProfiles(old(profiles), valid), PendingProfiles(profiles, valid))
      ensures !ok ==> LastFailed()
    {
      ok := true;
      var prof := profiles[k];
      var dirty := false;
      var beforeInvalidNames := new StringSet.FromSlice(prof.invalidAppNames);
      if beforeInvalidNames.elems != afterInvalidNames.elems {
        var names := afterInvalidNames.ToSlice();
        prof := prof.(invalidAppNames := names);
        dirty := true;
        SameMembers(names, afterInvalidNames.elems);
      }
      var afterHealth := if |prof.invalidAppNames| > 0 then "degraded" else "healthy";
      assert |prof.invalidAppNames| > 0 ==> prof.invalidAppNames[0] in Items(prof.invalidAppNames);
      if prof.health != afterHealth {
        prof := prof.(health := afterHealth);
        dirty := true;
      }
      if dirty {
        OneProfileLess(profiles, k, prof, valid);
        ok := UpdateProfileStatus(k, prof);
      }
    }

    /** The body of the profile loop; `done` are the profiles already visited. */
    method ReconcileProfile(k: nat, validAppNames: StringSet, profileToClusters: SetIndex, appToClusters: SetIndex,
                            ghost done: seq<AppProfile>, ghost users: string -> set<string>)
      returns (ok: bool)
      requires profileToClusters.Valid() && forall p :: profileToClusters.At(p) == users(p)
      requires appToClusters.Valid() && Gathered(appToClusters, validAppNames.elems, done, users)
      requires k < |profiles| && appToClusters != profileToClusters
      requires appToClusters.Sets !! profileToClusters.Sets
      modifies this`profiles, this`attempts, this`writes, appToClusters
      ensures appToClusters.Valid() && fresh(appToClusters.Sets - old(appToClusters.Sets))
      ensures |profiles| == |old(profiles)| && profiles == old(profiles)[k := profiles[k]]
      ensures ProfileStep(old(profiles)[k], profiles[k], validAppNames.elems)
      ensures ok ==> ProfileSynced(profiles[k], validAppNames.elems)
      ensures Gathered(appToClusters, validAppNames.elems, done + [old(profiles)[k]], users)
      ensures Accounted(writes - old(writes), attempts - old(attempts), ok,
                        PendingProfiles(old(profiles), validAppNames.elems),
                        PendingProfiles(profiles, validAppNames.elems))
      ensures !ok ==> LastFailed()
    {
      var afterInvalidNames := SortAppNames(profiles[k], validAppNames, profileToClusters, appToClusters);
      assert (done + [profiles[k]])[..|done|] == done;
      ok := ReconcileStatus(k, afterInvalidNames, validAppNames.elems);
    }

    method ReconcileProfiles(validAppNames: StringSet, profileToClusters: SetIndex,
                             ghost users: string -> set<string>)
      returns (ok: bool, appToClusters: SetIndex)
      requires profileToClusters.Valid() && validAppNames.elems == ValidNames(appSets)
      requires forall p :: profileToClusters.At(p) == users(p)
      modifies this`profiles, this`attempts, this`writes
      ensures fresh(appToClusters) && appToClusters.Valid()
      ensures |profiles| == |old(profiles)|
      ensures forall i | 0 <= i < |profiles| :: ProfileStep(old(profiles)[i], profiles[i], validAppNames.elems)
      ensures ok ==> forall p | p in profiles :: ProfileSynced(p, validAppNames.elems)
      ensures ok ==> Gathered(appToClusters, validAppNames.elems, old(profiles), users)
      ensures Accounted(writes - old(writes), attempts - old(attempts), ok,
                        PendingProfiles(old(profiles), validAppNames.elems),
                        PendingProfiles(profiles, validAppNames.elems))
      ensures !ok ==> LastFailed()
    {
      hide ProfileSynced, ProfileRepaired, InvalidOf, PendingProfiles, ValidNames;
      ghost var valid := validAppNames.elems;
      appToClusters := new SetIndex();
      var profList := profiles;
      assert profList[..0] == [];
      for k := 0 to |profList|
        invariant fresh(appToClusters) && appToClusters.Valid() && fresh(appToClusters.Sets)
        invariant |profiles| == |profList| && forall i | k <= i < |profList| :: profiles[i] == profList[i]
        invariant forall i | 0 <= i < k :: ProfileStep(profList[i], profiles[i], valid)
        invariant forall i | 0 <= i < k :: ProfileSynced(profiles[i], valid)
        invariant Gathered(appToClusters, valid, profList[..k], users)
        invariant Accounted(writes - old(writes), attempts - old(attempts), true,
                            PendingProfiles(old(profiles), valid), PendingProfiles(profiles, valid))
      {
        assert profList[..k + 1] == profList[..k] + [profList[k]];
        ok := ReconcileProfile(k, validAppNames, profileToClusters, appToClusters, profList[..k], users);
        if !ok {
          return;
        }
      }
      assert profList[..|profList|] == profList;
      ok := true;
    }

    /** The body of the app loop, for the k-th listed application set. */
    method ReconcileApp(k: nat, appToClusters: SetIndex, clustNameToServer: map<string, string>, ghost s: Snapshot)
      returns (ok: bool)
      requires k < |appSets| && appToClusters.Valid()
      requires appToClusters.At(appSets[k].name) == Targets(appSets[k].name, s)
      requires forall n :: ServerIn(clustNameToServer, n) == ServerOf(n, s.clusters)
      modifies this`appSets, this`attempts, this`writes
      ensures |appSets| == |old(appSets)| && appSets == old(appSets)[k := appSets[k]]
      ensures AppStep(old(appSets)[k], appSets[k], s)
      ensures ok ==> AppSynced(appSets[k], s)
      // only an app with exactly one generator, a list, is maintained, and it always is
      ensures var gens, gens' := old(appSets)[k].generators, appSets[k].generators;
              if |gens| == 1 && gens[0].ListGenerator?
              then ok ==> |gens'| == 1 && gens'[0].ListGenerator?
                          && DecodedNames(gens'[0].elements) == Targets(appSets[k].name, s)
              else appSets == old(appSets)
      ensures Accounted(writes - old(writes), attempts - old(attempts), ok,
                        PendingApps(old(appSets), s), PendingApps(appSets, s))
      ensures !ok ==> LastFailed()
    {
      ok := true;
      var app := appSets[k];
      if |app.generators| != 1 {
        return;
      }
      if !app.generators[0].ListGenerator? {
        return;
      }
      var beforeClusters := DecodeClusters(app.generators[0].elements);
      var afterClusters := new StringSet();
      if app.name in appToClusters.index {
        afterClusters := appToClusters.index[app.name];
      }
      if afterClusters.elems == beforeClusters.elems {
        return;
      }
      var newElems := EncodeClusters(afterClusters, clustNameToServer, s.clusters);
      var newApp := app.(generators := [ListGenerator(newElems)]);
      assert AppRepaired(app, newApp, s);
      T.AppStepSyncs(app, newApp, s);
      OneAppLess(appSets, k, newApp, s);
      ok := UpdateAppSet(k, newApp);
    }

    method ReconcileApps(appToClusters: SetIndex, clustNameToServer: map<string, string>, ghost s: Snapshot)
      returns (ok: bool)
      requires s.appSets == appSets && appToClusters.Valid()
      requires forall a | a in ValidNames(appSets) :: appToClusters.At(a) == Targets(a, s)
      requires forall n :: ServerIn(clustNameToServer, n) == ServerOf(n, s.clusters)
      modifies this`appSets, this`attempts, this`writes
      ensures |appSets| == |old(appSets)|
      ensures forall i | 0 <= i < |appSets| :: AppStep(old(appSets)[i], appSets[i], s)
      ensures ok ==> forall a | a in appSets :: AppSynced(a, s)
      ensures Accounted(writes - old(writes), attempts - old(attempts), ok,
                        PendingApps(old(appSets), s), PendingApps(appSets, s))
      ensures !ok ==> LastFailed()
    {
      var appList := appSets;
      for k := 0 to |appList|
        invariant |appSets| == |appList| && forall i | k <= i < |appList| :: appSets[i] == appList[i]
        invariant forall i | 0 <= i < k :: AppStep(appList[i], appSets[i], s) && AppSynced(appSets[i], s)
        invariant Accounted(writes - old(writes), attempts - old(attempts), true,
                            PendingApps(old(appSets), s), PendingApps(appSets, s))
      {
        assert appList[k] in appList && appList[k].name in ValidNames(s.appSets);
        ok := ReconcileApp(k, appToClusters, clustNameToServer, s);
        if !ok {
          return;
        }
      }
      ok := true;
    }

    method IndexArlonClusters() returns (arlonClusterMap: map<string, ClusterApp>)
      ensures arlonClusterMap == ArlonIndex(clusterApps)
    {
      arlonClusterMap := map[];
      for i := 0 to |clusterApps|
        invariant arlonClusterMap == ArlonIndex(clusterApps[..i])
      {
        assert clusterApps[..i + 1][..i] == clusterApps[..i];
        arlonClusterMap := arlonClusterMap[clusterApps[i].name := clusterApps[i]];
      }
      assert clusterApps[..|clusterApps|] == clusterApps;
    }

    method CollectAppNames() returns (validAppNames: StringSet)
      ensures fresh(validAppNames) && validAppNames.elems == ValidNames(appSets)
    {
      validAppNames := new StringSet();
      for i := 0 to |appSets|
        invariant fresh(validAppNames) && validAppNames.elems == ValidNames(appSets[..i])
      {
        assert appSets[..i + 1] == appSets[..i] + [appSets[i]];
        validAppNames.Add(appSets[i].name);
      }
      assert appSets[..|appSets|] == appSets;
    }

    /** Both repairs that follow from the profile index: statuses, then apps.
        The second is skipped when the first gives up. */
    method ReconcileTargets(validAppNames: StringSet, profileToClusters: SetIndex,
                            clustNameToServer: map<string, string>, ghost s: Snapshot)
      returns (ok: bool, ghost p2: Phase, ghost p3: Phase)
      requires s.profiles == profiles && s.appSets == appSets && validAppNames.elems == ValidNames(s.appSets)
      requires profileToClusters.Valid()
      requires forall p :: profileToClusters.At(p) == UsersOf(p, s.clusters, ArlonIndex(s.clusterApps))
      requires forall n :: ServerIn(clustNameToServer, n) == ServerOf(n, s.clusters)
      modifies this`profiles, this`appSets, this`attempts, this`writes
      ensures |profiles| == |s.profiles| && |appSets| == |s.appSets|
      ensures forall i | 0 <= i < |profiles| :: ProfileStep(s.profiles[i], profiles[i], ValidNames(s.appSets))
      ensures forall i | 0 <= i < |appSets| :: AppStep(s.appSets[i], appSets[i], s)
      ensures Settled(p2, PendingProfiles(s.profiles, ValidNames(s.appSets)),
                      PendingProfiles(profiles, ValidNames(s.appSets)))
      ensures Settled(p3, PendingApps(s.appSets, s), PendingApps(appSets, s))
      ensures attempts == old(attempts) + p2.attempts + p3.attempts && writes == old(writes) + p2.writes + p3.writes
      ensures ok == (p2.ok && p3.ok) && (!p2.ok ==> p3 == SKIPPED && appSets == s.appSets)
      ensures p2.ok ==> forall p | p in profiles :: ProfileSynced(p, ValidNames(s.appSets))
      ensures ok ==> forall a | a in appSets :: AppSynced(a, s)
      ensures !ok ==> LastFailed()
    {
      hide ClusterSynced, Effective, Listed, ProfileSynced, ProfileRepaired, AppSynced, AppRepaired, ProfileStep,
           PendingProfiles, PendingApps, ArlonIndex, Targets, UsersOf, Reached, ValidNames;
      ghost var attempts1, writes1 := attempts, writes;
      ghost var users := p => UsersOf(p, s.clusters, ArlonIndex(s.clusterApps));
      var appToClusters;
      ok, appToClusters := ReconcileProfiles(validAppNames, profileToClusters, users);
      p2, p3 := Phase(writes - writes1, attempts - attempts1, ok), SKIPPED;
      if !ok {
        return;
      }
      ghost var attempts2, writes2 := attempts, writes;
      AllReached(s, users);
      ok := ReconcileApps(appToClusters, clustNameToServer, s);
      p3 := Phase(writes - writes2, attempts - attempts2, ok);
    }

    /** One pass. `listed` is false when a client or a list call fails: the
        pass then stops before any write. */
    method ReconcileEverything(listed: bool) returns (ok: bool)
      modifies this`clusters, this`profiles, this`appSets, this`attempts, this`writes
      ensures attempts >= old(attempts) && writes >= old(writes)
      ensures IsPass(Pass(old(Contents()), Contents(), ok, attempts - old(attempts), writes - old(writes)))
      // a pass gives up only when an update call failed, and then at once
      ensures listed && !ok ==> attempts > old(attempts) && LastFailed()
      ensures listed && (forall k | old(attempts) <= k < attempts :: faults(k) == Fine) ==> ok
      ensures !listed ==> !ok && attempts == old(attempts)
    {
      hide ClusterSynced, SyncCluster, Effective, Listed, ProfileSynced, ProfileRepaired, AppSynced, AppRepaired,
           PendingClusters, PendingProfiles, PendingApps, ArlonIndex, Targets, UsersOf, Reached, ValidNames, IsPass,
           ClusterStep, ProfileStep, AppStep, Pending;
      ghost var s, attempts0, writes0 := Contents(), attempts, writes;
      NothingSpent(s);
      if !listed {
        PhasesMakePass(s, s, false, SKIPPED, SKIPPED, SKIPPED);
        return false;
      }
      var arlonClusterMap := IndexArlonClusters();
      var validAppNames := CollectAppNames();
      var profileToClusters := new SetIndex();
      var clustNameToServer;
      ok, clustNameToServer := ReconcileClusters(arlonClusterMap, profileToClusters);
      ghost var p1 := Phase(writes - writes0, attempts - attempts0, ok);
      if !ok {
        PhasesMakePass(s, Contents(), false, p1, SKIPPED, SKIPPED);
        return;
      }
      ghost var p2, p3;
      ok, p2, p3 := ReconcileTargets(validAppNames, profileToClusters, clustNameToServer, s);
      PhasesMakePass(s, Contents(), ok, p1, p2, p3);
    }
  }
}
