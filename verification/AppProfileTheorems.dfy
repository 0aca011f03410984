/** What any number of passes achieve, whatever calls fail. Everything follows
    from AppProfileSpec.IsPass, the contract of AppProfileReconciler. */
module AppProfileTheorems {
  import opened Wrappers
  import opened Text
  import opened AppProfileSpec

  // ------------------------------------- repairs put objects in sync

  lemma SyncClusterSyncs(c: ArgoCluster, arlon: map<string, ClusterApp>)
    requires !ClusterSynced(c, arlon)
    ensures var c' := SyncCluster(c, Effective(c, arlon));
            ClusterSynced(c', arlon) && Effective(c', arlon) == Effective(c, arlon)
  {
  }

  lemma RepairedProfileIsSynced(p: AppProfile, p': AppProfile, valid: set<string>)
    requires ProfileRepaired(p, p', valid)
    ensures ProfileSynced(p', valid)
  {
    var bad := InvalidOf(p, valid);
    assert InvalidOf(p', valid) == bad;
    if Items(p.invalidAppNames) != bad {
      assert forall n :: n in p'.invalidAppNames <==> n in multiset(p'.invalidAppNames);
      assert forall n :: n in bad <==> n in multiset(bad);
    }
  }

  lemma {:induction false} DecodedOfWellFormed(elements: seq<Element>, n: string)
    requires forall e | e in elements :: e.Object?
    ensures n in DecodedNames(elements) <==> exists i :: 0 <= i < |elements| && n in NameIn(elements[i])
  {
    if elements != [] {
      assert elements[0] in elements;
      DecodedOfWellFormed(elements[1..], n);
      if n in DecodedNames(elements[1..]) {
        var i :| 0 <= i < |elements[1..]| && n in NameIn(elements[1..][i]);
        assert elements[i + 1] == elements[1..][i];
      }
      if i :| 0 < i < |elements| && n in NameIn(elements[i]) {
        assert elements[1..][i - 1] == elements[i];
      }
    }
  }

  lemma {:induction false} DecodedOfFresh(elements: seq<Element>, targets: set<string>, clusters: seq<ArgoCluster>)
    requires multiset(elements) == multiset(FreshElements(targets, clusters))
    ensures DecodedNames(elements) == targets
  {
    var wanted := FreshElements(targets, clusters);
    forall e ensures e in elements <==> e in wanted {
      assert e in elements <==> e in multiset(elements);
      assert e in wanted <==> e in multiset(wanted);
    }
    forall n ensures n in targets <==> n in DecodedNames(elements) {
      DecodedOfWellFormed(elements, n);
      if n in targets {
        var e := NewElement(n, ServerOf(n, clusters));
        assert e in elements && n in NameIn(e);
      }
      if i :| 0 <= i < |elements| && n in NameIn(elements[i]) {
        assert elements[i] in wanted;
      }
    }
  }

  // ------------------------------------- no write touches an input

  lemma {:induction false} SameServers(clusters: seq<ArgoCluster>, clusters': seq<ArgoCluster>, n: string)
    requires |clusters| == |clusters'|
    requires forall i | 0 <= i < |clusters| ::
               clusters'[i].name == clusters[i].name && clusters'[i].server == clusters[i].server
    ensures ServerOf(n, clusters') == ServerOf(n, clusters)
  {
    if clusters != [] {
      SameServers(clusters[..|clusters| - 1], clusters'[..|clusters| - 1], n);
    }
  }

  ghost predicate SameUse(c: ArgoCluster, d: ArgoCluster, arlon: map<string, ClusterApp>) {
    d.name == c.name && Effective(d, arlon) == Effective(c, arlon)
  }

  ghost predicate SameNames(p: AppProfile, q: AppProfile) {
    q.name == p.name && Items(q.appNames) == Items(p.appNames)
  }

  lemma TargetsWithin(s: Snapshot, t: Snapshot, app: string)
    requires t.clusterApps == s.clusterApps && ValidNames(s.appSets) <= ValidNames(t.appSets)
    requires forall c | c in s.clusters ::
               exists d :: d in t.clusters && SameUse(c, d, ArlonIndex(s.clusterApps))
    requires forall p | p in s.profiles :: exists q :: q in t.profiles && SameNames(p, q)
    ensures Targets(app, s) <= Targets(app, t)
  {
    var arlon := ArlonIndex(s.clusterApps);
    forall n | n in Targets(app, s) ensures n in Targets(app, t) {
      var c, p :| c in s.clusters && p in s.profiles && app in p.appNames
                  && p.name in Listed(Effective(c, arlon)) && n == c.name;
      var d :| d in t.clusters && SameUse(c, d, arlon);
      var q :| q in t.profiles && SameNames(p, q);
      assert app in Items(p.appNames);
      assert app in q.appNames;
      assert q.name in Listed(Effective(d, arlon));
    }
  }

  /** Nothing a pass writes feeds back into what passes compute. */
  lemma InputsPreserved(s: Snapshot, t: Snapshot)
    requires Steps(s, t)
    ensures ValidNames(t.appSets) == ValidNames(s.appSets)
    ensures forall i | 0 <= i < |s.clusters| ::
              && t.clusters[i].name == s.clusters[i].name && t.clusters[i].server == s.clusters[i].server
              && Effective(t.clusters[i], ArlonIndex(t.clusterApps))
                 == Effective(s.clusters[i], ArlonIndex(s.clusterApps))
    ensures forall i | 0 <= i < |s.profiles| ::
              InvalidOf(t.profiles[i], ValidNames(t.appSets)) == InvalidOf(s.profiles[i], ValidNames(s.appSets))
    ensures forall app :: Targets(app, t) == Targets(app, s)
    ensures forall n :: ServerOf(n, t.clusters) == ServerOf(n, s.clusters)
  {
    assert ValidNames(t.appSets) == ValidNames(s.appSets) by {
      forall i | 0 <= i < |s.appSets| ensures t.appSets[i].name == s.appSets[i].name {
        assert AppStep(s.appSets[i], t.appSets[i], s);
      }
      forall n | n in ValidNames(t.appSets) ensures n in ValidNames(s.appSets) {
        var i :| 0 <= i < |t.appSets| && t.appSets[i].name == n;
        assert s.appSets[i] in s.appSets;
      }
      forall n | n in ValidNames(s.appSets) ensures n in ValidNames(t.appSets) {
        var i :| 0 <= i < |s.appSets| && s.appSets[i].name == n;
        assert t.appSets[i] in t.appSets;
      }
    }
    forall i | 0 <= i < |s.profiles|
      ensures t.profiles[i].name == s.profiles[i].name && t.profiles[i].appNames == s.profiles[i].appNames
    {
      assert ProfileStep(s.profiles[i], t.profiles[i], ValidNames(s.appSets));
    }
    forall i | 0 <= i < |s.clusters|
      ensures && t.clusters[i].name == s.clusters[i].name && t.clusters[i].server == s.clusters[i].server
              && Effective(t.clusters[i], ArlonIndex(t.clusterApps))
                 == Effective(s.clusters[i], ArlonIndex(s.clusterApps))
    {
      assert ClusterStep(s.clusters[i], t.clusters[i], ArlonIndex(s.clusterApps));
    }
    forall n ensures ServerOf(n, t.clusters) == ServerOf(n, s.clusters) {
      SameServers(s.clusters, t.clusters, n);
    }
    forall app ensures Targets(app, t) == Targets(app, s) {
      SameTargets(s, t, app);
    }
  }

  lemma SameTargets(s: Snapshot, t: Snapshot, app: string)
    requires SameShape(s, t) && ValidNames(t.appSets) == ValidNames(s.appSets)
    requires forall i | 0 <= i < |s.clusters| ::
              && t.clusters[i].name == s.clusters[i].name
              && Effective(t.clusters[i], ArlonIndex(t.clusterApps))
                 == Effective(s.clusters[i], ArlonIndex(s.clusterApps))
    requires forall i | 0 <= i < |s.profiles| ::
              t.profiles[i].name == s.profiles[i].name && t.profiles[i].appNames == s.profiles[i].appNames
    ensures Targets(app, t) == Targets(app, s)
  {
    var arlon := ArlonIndex(s.clusterApps);
    forall c | c in s.clusters
      ensures exists d :: d in t.clusters && SameUse(c, d, arlon)
    {
      var i :| 0 <= i < |s.clusters| && s.clusters[i] == c;
      assert t.clusters[i] in t.clusters;
    }
    forall d | d in t.clusters
      ensures exists c :: c in s.clusters && SameUse(d, c, arlon)
    {
      var i :| 0 <= i < |t.clusters| && t.clusters[i] == d;
      assert s.clusters[i] in s.clusters;
    }
    forall p | p in s.profiles
      ensures exists q :: q in t.profiles && SameNames(p, q)
    {
      var i :| 0 <= i < |s.profiles| && s.profiles[i] == p;
      assert t.profiles[i] in t.profiles;
    }
    forall q | q in t.profiles
      ensures exists p :: p in s.profiles && SameNames(q, p)
    {
      var i :| 0 <= i < |t.profiles| && t.profiles[i] == q;
      assert s.profiles[i] in s.profiles;
    }
    TargetsWithin(s, t, app);
    TargetsWithin(t, s, app);
  }

  lemma AppStepSyncs(a: AppSet, a': AppSet, s: Snapshot)
    requires AppRepaired(a, a', s)
    ensures AppSynced(a', s)
  {
    DecodedOfFresh(a'.generators[0].elements, Targets(a.name, s), s.clusters);
  }

  lemma StepsCompose(s: Snapshot, t: Snapshot, u: Snapshot)
    requires Steps(s, t) && Steps(t, u)
    ensures Steps(s, u)
  {
    InputsPreserved(s, t);
    var arlon, valid := ArlonIndex(s.clusterApps), ValidNames(s.appSets);
    forall i | 0 <= i < |s.clusters| ensures ClusterStep(s.clusters[i], u.clusters[i], arlon) {
      assert ClusterStep(s.clusters[i], t.clusters[i], arlon) && ClusterStep(t.clusters[i], u.clusters[i], arlon);
      if t.clusters[i] != s.clusters[i] {
        SyncClusterSyncs(s.clusters[i], arlon);
      }
    }
    forall i | 0 <= i < |s.profiles| ensures ProfileStep(s.profiles[i], u.profiles[i], valid) {
      assert ProfileStep(s.profiles[i], t.profiles[i], valid) && ProfileStep(t.profiles[i], u.profiles[i], valid);
      if t.profiles[i] != s.profiles[i] {
        RepairedProfileIsSynced(s.profiles[i], t.profiles[i], valid);
      }
    }
    forall i | 0 <= i < |s.appSets| ensures AppStep(s.appSets[i], u.appSets[i], s) {
      assert AppStep(s.appSets[i], t.appSets[i], s) && AppStep(t.appSets[i], u.appSets[i], t);
      if t.appSets[i] != s.appSets[i] {
        AppStepSyncs(s.appSets[i], t.appSets[i], s);
      } else {
        assert FreshElements(Targets(s.appSets[i].name, s), s.clusters)
            == FreshElements(Targets(s.appSets[i].name, t), t.clusters);
      }
    }
  }

  // ------------------------------------- main results

  /** Equal annotations, invalid-name lists, health and generator contents,
      the last two lists up to order. */
  ghost predicate SameOutcome(s: Snapshot, t: Snapshot) {
    && SameShape(s, t)
    && t.clusters == s.clusters
    && (forall i | 0 <= i < |s.profiles| ::
          && t.profiles[i] == s.profiles[i].(invalidAppNames := t.profiles[i].invalidAppNames)
          && multiset(t.profiles[i].invalidAppNames) == multiset(s.profiles[i].invalidAppNames))
    && (forall i | 0 <= i < |s.appSets| ::
          || t.appSets[i] == s.appSets[i]
          || (&& t.appSets[i].name == s.appSets[i].name && Targetable(s.appSets[i]) && Targetable(t.appSets[i])
              && multiset(t.appSets[i].generators[0].elements) == multiset(s.appSets[i].generators[0].elements)))
  }

  /** Two ways of getting from s to a state in sync end in the same outcome. */
  lemma Confluence(s: Snapshot, t: Snapshot, u: Snapshot)
    requires Steps(s, t) && InSync(t)
    requires Steps(s, u) && InSync(u)
    ensures SameOutcome(t, u)
  {
    InputsPreserved(s, t);
    InputsPreserved(s, u);
    var arlon, valid := ArlonIndex(s.clusterApps), ValidNames(s.appSets);
    forall i | 0 <= i < |s.clusters| ensures t.clusters[i] == u.clusters[i] {
      assert t.clusters[i] in t.clusters && u.clusters[i] in u.clusters;
      assert ClusterStep(s.clusters[i], t.clusters[i], arlon) && ClusterStep(s.clusters[i], u.clusters[i], arlon);
    }
    assert t.clusters == u.clusters;
    forall i | 0 <= i < |s.profiles|
      ensures && u.profiles[i] == t.profiles[i].(invalidAppNames := u.profiles[i].invalidAppNames)
              && multiset(u.profiles[i].invalidAppNames) == multiset(t.profiles[i].invalidAppNames)
    {
      assert t.profiles[i] in t.profiles && u.profiles[i] in u.profiles;
      assert ProfileStep(s.profiles[i], t.profiles[i], valid) && ProfileStep(s.profiles[i], u.profiles[i], valid);
    }
    forall i | 0 <= i < |s.appSets| && u.appSets[i] != t.appSets[i]
      ensures && t.appSets[i].name == u.appSets[i].name && Targetable(t.appSets[i]) && Targetable(u.appSets[i])
              && multiset(u.appSets[i].generators[0].elements) == multiset(t.appSets[i].generators[0].elements)
    {
      assert t.appSets[i] in t.appSets && u.appSets[i] in u.appSets;
      assert AppStep(s.appSets[i], t.appSets[i], s) && AppStep(s.appSets[i], u.appSets[i], s);
    }
  }

  /** A history of passes: each starts where the previous one stopped. */
  ghost predicate IsHistory(h: seq<Pass>) {
    && (forall i | 0 <= i < |h| :: IsPass(h[i]))
    && (forall i | 0 < i < |h| :: h[i].before == h[i - 1].after)
  }

  function TotalWrites(h: seq<Pass>): nat {
    if h == [] then 0 else TotalWrites(h[..|h| - 1]) + h[|h| - 1].writes
  }

  /** Writes are conserved: over any history, aborted or not, the writes that
      took effect are exactly the objects that left the out-of-sync count. */
  lemma {:induction false} WritesConserved(h: seq<Pass>)
    requires h != [] && IsHistory(h)
    ensures Steps(h[0].before, h[|h| - 1].after)
    ensures TotalWrites(h) + Pending(h[|h| - 1].after) == Pending(h[0].before)
  {
    var n := |h| - 1;
    assert IsPass(h[n]);
    if n > 0 {
      WritesConserved(h[..n]);
      StepsCompose(h[0].before, h[n - 1].after, h[n].after);
    } else {
      assert TotalWrites(h[..n]) == 0;
    }
  }

  /** A history whose last pass returned no error. */
  ghost predicate Completes(h: seq<Pass>) {
    h != [] && IsHistory(h) && h[|h| - 1].done
  }

  lemma Completed(h: seq<Pass>)
    requires Completes(h)
    ensures Steps(h[0].before, h[|h| - 1].after) && InSync(h[|h| - 1].after)
  {
    WritesConserved(h);
    assert IsPass(h[|h| - 1]);
  }

  /** Crash tolerance: any number of passes cut short by failing updates, then
      one that completes, end where a single completed pass would have. */
  lemma {:induction false} CrashTolerance(h: seq<Pass>, direct: Pass)
    requires Completes(h)
    requires IsPass(direct) && direct.done && direct.before == h[0].before
    ensures SameOutcome(direct.after, h[|h| - 1].after)
    ensures TotalWrites(h) == direct.writes
  {
    WritesConserved(h);
    assert IsPass(h[|h| - 1]);
    Confluence(direct.before, direct.after, h[|h| - 1].after);
    NothingPending(direct.after);
    NothingPending(h[|h| - 1].after);
  }

  lemma NothingPending(s: Snapshot)
    ensures InSync(s) <==> Pending(s) == 0
  {
    NoClusterPending(s.clusters, ArlonIndex(s.clusterApps));
    NoProfilePending(s.profiles, ValidNames(s.appSets));
    NoAppPending(s.appSets, s);
  }

  lemma {:induction false} NoClusterPending(cs: seq<ArgoCluster>, arlon: map<string, ClusterApp>)
    ensures PendingClusters(cs, arlon) == 0 <==> forall c | c in cs :: ClusterSynced(c, arlon)
  {
    if cs != [] {
      NoClusterPending(cs[1..], arlon);
      assert forall c :: c in cs <==> c == cs[0] || c in cs[1..];
    }
  }

  lemma {:induction false} NoProfilePending(ps: seq<AppProfile>, valid: set<string>)
    ensures PendingProfiles(ps, valid) == 0 <==> forall p | p in ps :: ProfileSynced(p, valid)
  {
    if ps != [] {
      NoProfilePending(ps[1..], valid);
      assert forall p :: p in ps <==> p == ps[0] || p in ps[1..];
    }
  }

  lemma {:induction false} NoAppPending(sets: seq<AppSet>, s: Snapshot)
    ensures PendingApps(sets, s) == 0 <==> forall a | a in sets :: AppSynced(a, s)
  {
    if sets != [] {
      NoAppPending(sets[1..], s);
      assert forall a :: a in sets <==> a == sets[0] || a in sets[1..];
    }
  }

  /** A completed pass is a fixpoint: whatever follows attempts no write. */
  lemma Fixpoint(first: Pass, second: Pass)
    requires IsPass(first) && first.done && IsPass(second) && second.before == first.after
    ensures second.attempts == 0 && second.after == second.before
  {
    NothingPending(first.after);
    var s, t := second.before, second.after;
    assert forall i | 0 <= i < |s.clusters| :: s.clusters[i] in s.clusters && t.clusters[i] == s.clusters[i];
    assert t.clusters == s.clusters;
    assert forall i | 0 <= i < |s.profiles| :: s.profiles[i] in s.profiles && t.profiles[i] == s.profiles[i];
    assert t.profiles == s.profiles;
    assert forall i | 0 <= i < |s.appSets| :: s.appSets[i] in s.appSets && t.appSets[i] == s.appSets[i];
    assert t.appSets == s.appSets;
  }

  /** Refinement, on the app's side: after a completed history an app with one
      list generator still has just one, which decodes to exactly the clusters
      whose effective annotation lists some profile that contains the app. */
  lemma Refinement(h: seq<Pass>, i: nat)
    requires Completes(h) && i < |h[0].before.appSets| == |h[|h| - 1].after.appSets|
    requires |h[0].before.appSets[i].generators| == 1 && h[0].before.appSets[i].generators[0].ListGenerator?
    ensures var s, a := h[0].before, h[|h| - 1].after.appSets[i];
            && |a.generators| == 1 && a.generators[0].ListGenerator?
            && forall n :: n in DecodedNames(a.generators[0].elements) <==>
                 exists c :: c in s.clusters && c.name == n
                             && s.appSets[i].name in AppsOf(Listed(Effective(c, ArlonIndex(s.clusterApps))), s)
  {
    Completed(h);
    var s, t := h[0].before, h[|h| - 1].after;
    InputsPreserved(s, t);
    var a := t.appSets[i];
    assert a in t.appSets && AppSynced(a, t);
    assert AppStep(s.appSets[i], a, s) && a.name == s.appSets[i].name;
    forall n ensures n in DecodedNames(a.generators[0].elements) <==>
        exists c :: c in s.clusters && c.name == n
          && a.name in AppsOf(Listed(Effective(c, ArlonIndex(s.clusterApps))), s)
    {
      Transpose(s, a.name, n);
    }
  }

  /** The two readings of the documented rule agree. */
  lemma Transpose(s: Snapshot, app: string, n: string)
    ensures n in Targets(app, s) <==>
              exists c :: c in s.clusters && c.name == n
                && app in AppsOf(Listed(Effective(c, ArlonIndex(s.clusterApps))), s)
  {
    var arlon := ArlonIndex(s.clusterApps);
    if n in Targets(app, s) {
      var c, p :| c in s.clusters && p in s.profiles && app in p.appNames
                  && p.name in Listed(Effective(c, arlon)) && n == c.name;
      assert app in AppsOf(Listed(Effective(c, arlon)), s);
    }
    if c :| c in s.clusters && c.name == n && app in AppsOf(Listed(Effective(c, arlon)), s) {
      var p :| p in s.profiles && p.name in Listed(Effective(c, arlon)) && app in p.appNames;
      assert n in Targets(app, s);
    }
  }

  /** Refinement, on the profile's side: after a completed history every profile
      records exactly its dangling names and is degraded iff there are any. */
  lemma ProfileTruth(h: seq<Pass>, i: nat)
    requires Completes(h) && i < |h[0].before.profiles| == |h[|h| - 1].after.profiles|
    ensures var s, q := h[0].before, h[|h| - 1].after.profiles[i];
            && q.appNames == s.profiles[i].appNames
            && (forall n :: n in q.invalidAppNames <==>
                  n in q.appNames && !exists a :: a in s.appSets && a.name == n)
            && (q.health == "degraded" <==> q.invalidAppNames != [])
            && (q.health == "healthy" <==> q.invalidAppNames == [])
  {
    Completed(h);
    var s, t := h[0].before, h[|h| - 1].after;
    InputsPreserved(s, t);
    var q := t.profiles[i];
    assert q in t.profiles && ProfileStep(s.profiles[i], q, ValidNames(s.appSets));
    forall n ensures n in q.invalidAppNames <==>
        n in q.appNames && !exists a :: a in s.appSets && a.name == n
    {
      assert n in q.invalidAppNames <==> n in Items(q.invalidAppNames);
    }
    if q.invalidAppNames != [] {
      assert q.invalidAppNames[0] in Items(q.invalidAppNames);
    }
  }

  lemma OtherKeysStay(c: ArgoCluster, c': ArgoCluster, arlon: map<string, ClusterApp>, key: string)
    requires ClusterStep(c, c', arlon) && key != PROFILES_KEY
    ensures Lookup(c'.annotations, key) == Lookup(c.annotations, key)
  {
  }

  /** After a completed history every registered cluster carries the annotation
      that decides for it, and everything else about it is unchanged. */
  lemma AnnotationTruth(h: seq<Pass>, i: nat, key: string)
    requires Completes(h) && i < |h[0].before.clusters| == |h[|h| - 1].after.clusters|
    ensures var s, c, c' := h[0].before, h[0].before.clusters[i], h[|h| - 1].after.clusters[i];
            && Lookup(c'.annotations, PROFILES_KEY) == Effective(c, ArlonIndex(s.clusterApps))
            && c'.name == c.name && c'.server == c.server
            && (key != PROFILES_KEY ==> Lookup(c'.annotations, key) == Lookup(c.annotations, key))
  {
    Completed(h);
    var s, t := h[0].before, h[|h| - 1].after;
    var arlon := ArlonIndex(s.clusterApps);
    assert t.clusters[i] in t.clusters && ClusterSynced(t.clusters[i], arlon);
    assert ClusterStep(s.clusters[i], t.clusters[i], arlon);
    if key != PROFILES_KEY {
      OtherKeysStay(s.clusters[i], t.clusters[i], arlon, key);
    }
  }

  lemma {:induction false} ServerIsRegistered(n: string, clusters: seq<ArgoCluster>, c: ArgoCluster)
    requires c in clusters && c.name == n
    ensures exists d :: d in clusters && d.name == n && d.server == ServerOf(n, clusters)
  {
    var last := clusters[|clusters| - 1];
    if last.name == n {
      assert last in clusters;
    } else {
      var rest := clusters[..|clusters| - 1];
      assert c in rest;
      ServerIsRegistered(n, rest, c);
    }
  }

  /** Exact generators: an app that was rewritten anywhere in a history has one
      element per target, none twice, each with the server of a registered
      cluster of that name. */
  lemma RewrittenExactly(h: seq<Pass>, i: nat)
    requires h != [] && IsHistory(h) && i < |h[0].before.appSets|
    requires |h[|h| - 1].after.appSets| == |h[0].before.appSets|
    requires h[|h| - 1].after.appSets[i] != h[0].before.appSets[i]
    ensures var a := h[|h| - 1].after.appSets[i]; |a.generators| == 1 && a.generators[0].ListGenerator?
    ensures var s, elements := h[0].before, h[|h| - 1].after.appSets[i].generators[0].elements;
            var targets := Targets(s.appSets[i].name, s);
            && |elements| == |targets| && Distinct(elements)
            && (forall n | n in targets ::
                  exists c :: c in s.clusters && c.name == n && NewElement(n, c.server) in elements)
            && (forall e | e in elements ::
                  exists c :: c in s.clusters && c.name in targets && e == NewElement(c.name, c.server))
  {
    WritesConserved(h);
    var s := h[0].before;
    assert AppStep(s.appSets[i], h[|h| - 1].after.appSets[i], s);
    var elements := h[|h| - 1].after.appSets[i].generators[0].elements;
    var targets := Targets(s.appSets[i].name, s);
    var wanted := FreshElements(targets, s.clusters);
    FreshSize(targets, s.clusters);
    EnumeratesOnce(elements, wanted);
    forall e ensures e in elements <==> e in wanted {
      assert e in elements <==> e in multiset(elements);
      assert e in wanted <==> e in multiset(wanted);
    }
    forall n | n in targets
      ensures exists c :: c in s.clusters && c.name == n && NewElement(n, c.server) in elements
      ensures exists c :: c in s.clusters && c.name == n
                && NewElement(n, ServerOf(n, s.clusters)) == NewElement(c.name, c.server)
    {
      var c :| c in s.clusters && c.name == n;
      ServerIsRegistered(n, s.clusters, c);
      var d :| d in s.clusters && d.name == n && d.server == ServerOf(n, s.clusters);
      assert NewElement(n, d.server) in wanted;
    }
  }

  /** A generator with one current element per target and nothing else. */
  ghost predicate Exact(a: AppSet, s: Snapshot) {
    && |a.generators| == 1 && a.generators[0].ListGenerator?
    && multiset(a.generators[0].elements) == multiset(FreshElements(Targets(a.name, s), s.clusters))
  }

  /** When generators end up exact: after a completed history a list-generator
      app is exact if and only if it was out of sync, and so was rewritten, or
      exact already. What decodes to the target set is never looked at again. */
  lemma ExactlyWhen(h: seq<Pass>, i: nat)
    requires Completes(h) && i < |h[0].before.appSets| == |h[|h| - 1].after.appSets|
    requires |h[0].before.appSets[i].generators| == 1 && h[0].before.appSets[i].generators[0].ListGenerator?
    ensures var s := h[0].before;
            Exact(h[|h| - 1].after.appSets[i], s) <==> !AppSynced(s.appSets[i], s) || Exact(s.appSets[i], s)
  {
    var s, t := h[0].before, h[|h| - 1].after;
    Completed(h);
    InputsPreserved(s, t);
    assert AppStep(s.appSets[i], t.appSets[i], s);
    assert t.appSets[i] in t.appSets && AppSynced(t.appSets[i], t);
  }

  /** One cluster "c" registered at "new", and one app that targets it. */
  function Single(elements: seq<Element>): Snapshot {
    Snapshot([ArgoCluster("c", "new", Some(map[PROFILES_KEY := "p"]))], [],
             [AppSet("a", [ListGenerator(elements)])],
             [AppProfile("", "p", ["a"], [], "healthy")])
  }

  lemma SingleTargets(elements: seq<Element>)
    ensures var s := Single(elements);
            && ValidNames(s.appSets) == {"a"} && Targets("a", s) == {"c"}
            && Effective(s.clusters[0], ArlonIndex([])) == "p"
            && FreshElements({"c"}, s.clusters) == {NewElement("c", "new")}
  {
    var s := Single(elements);
    SplitWithout("p", ',');
    assert Listed("p") == ["p"];
    assert s.appSets[0] in s.appSets && ValidNames(s.appSets) == {"a"};
    assert s.clusters[0] in s.clusters && s.profiles[0] in s.profiles;
    assert Effective(s.clusters[0], ArlonIndex([])) == "p";
    hide Listed, Effective, ValidNames, ArlonIndex;
    assert "c" in Targets("a", s);
  }

  /** If the elements decode to the target, a pass has nothing to do. */
  lemma {:induction false} SingleIsSettled(elements: seq<Element>)
    requires DecodedNames(elements) == {"c"}
    ensures var s := Single(elements);
            && Targets("a", s) == {"c"} && InSync(s) && IsPass(Pass(s, s, true, 0, 0))
            && FreshElements({"c"}, s.clusters) == {NewElement("c", "new")}
  {
    var s := Single(elements);
    SingleTargets(elements);
    assert Items(s.profiles[0].invalidAppNames) == InvalidOf(s.profiles[0], {"a"}) == {};
    NothingPending(s);
    hide Targets, Effective, Listed, ArlonIndex, ValidNames, InvalidOf, Pending, FreshElements, DecodedNames;
  }

  /** The failing inputs: an address that changed since the app was written, and
      a malformed element behind the last one that decodes. Both stay. */
  lemma InexactGeneratorsStay()
    ensures var stale := Single([NewElement("c", "old")]);
            IsPass(Pass(stale, stale, true, 0, 0)) && !Exact(stale.appSets[0], stale)
    ensures var broken := Single([NewElement("c", "new"), Malformed]);
            IsPass(Pass(broken, broken, true, 0, 0)) && !Exact(broken.appSets[0], broken)
  {
    var old_, new_ := NewElement("c", "old"), NewElement("c", "new");
    assert old_.fields[CLUSTER_SERVER] != new_.fields[CLUSTER_SERVER];
    assert [old_][1..] == [] && [new_, Malformed][1..] == [Malformed];
    SingleIsSettled([old_]);
    SingleIsSettled([new_, Malformed]);
    assert old_ in multiset([old_]) && old_ !in multiset({new_});
    assert Malformed in multiset([new_, Malformed]) && Malformed !in multiset({new_});
  }

  lemma {:induction false} FreshSize(targets: set<string>, clusters: seq<ArgoCluster>)
    ensures |FreshElements(targets, clusters)| == |targets|
  {
    if targets != {} {
      var n :| n in targets;
      var e := NewElement(n, ServerOf(n, clusters));
      FreshSize(targets - {n}, clusters);
      assert FreshElements(targets, clusters) == FreshElements(targets - {n}, clusters) + {e};
      forall m | m in targets - {n} ensures NewElement(m, ServerOf(m, clusters)) != e {
        assert e.fields[CLUSTER_NAME] == JString(n);
        assert NewElement(m, ServerOf(m, clusters)).fields[CLUSTER_NAME] == JString(m);
      }
      assert e !in FreshElements(targets - {n}, clusters);
    }
  }

  lemma EnumeratesOnce<T>(list: seq<T>, items: set<T>)
    requires multiset(list) == multiset(items)
    ensures |list| == |items| && Distinct(list)
  {
    assert |multiset(list)| == |list| && |multiset(items)| == |items|;
    forall i, j | 0 <= i < j < |list| ensures list[i] != list[j] {
      if list[i] == list[j] {
        CountedTwice(list, i, j);
      }
    }
  }

  lemma CountedTwice<T>(list: seq<T>, i: nat, j: nat)
    requires i < j < |list| && list[i] == list[j]
    ensures multiset(list)[list[i]] >= 2
  {
    assert list == list[..i] + [list[i]] + list[i + 1..j] + [list[j]] + list[j + 1..];
  }

  lemma SameMembers<T>(a: seq<T>, b: seq<T>)
    requires multiset(a) == multiset(b)
    ensures forall x :: x in a <==> x in b
  {
    assert forall x :: x in a <==> x in multiset(a);
    assert forall x :: x in b <==> x in multiset(b);
  }

  /** What a profile contributes to targets: its name and its SET of apps. */
  function Membership(profiles: seq<AppProfile>): seq<(string, set<string>)> {
    seq(|profiles|, i requires 0 <= i < |profiles| => (profiles[i].name, Items(profiles[i].appNames)))
  }

  lemma OneWay(s: Snapshot, t: Snapshot, app: string)
    requires t.clusterApps == s.clusterApps && ValidNames(s.appSets) == ValidNames(t.appSets)
    requires forall c | c in s.clusters :: c in t.clusters
    requires multiset(Membership(s.profiles)) == multiset(Membership(t.profiles))
    ensures Targets(app, s) <= Targets(app, t)
  {
    var arlon := ArlonIndex(s.clusterApps);
    assert forall c | c in s.clusters :: c in t.clusters && SameUse(c, c, arlon);
    forall p | p in s.profiles ensures exists q :: q in t.profiles && SameNames(p, q) {
      var i :| 0 <= i < |s.profiles| && s.profiles[i] == p;
      SameMembers(Membership(s.profiles), Membership(t.profiles));
      assert Membership(s.profiles)[i] in Membership(t.profiles);
      var j :| 0 <= j < |t.profiles| && Membership(t.profiles)[j] == Membership(s.profiles)[i];
      assert SameNames(p, t.profiles[j]);
    }
    TargetsWithin(s, t, app);
  }

  /** Order independence: what is listed matters, not in which order. The
      names of cluster apps are unique, as Kubernetes guarantees. */
  lemma OrderIndependence(s: Snapshot, t: Snapshot, app: string)
    requires multiset(s.clusters) == multiset(t.clusters)
    requires multiset(s.appSets) == multiset(t.appSets)
    requires multiset(s.clusterApps) == multiset(t.clusterApps)
    requires multiset(Membership(s.profiles)) == multiset(Membership(t.profiles))
    requires forall i, j | 0 <= i < j < |s.clusterApps| :: s.clusterApps[i].name != s.clusterApps[j].name
    ensures Targets(app, s) == Targets(app, t)
    ensures ValidNames(s.appSets) == ValidNames(t.appSets)
  {
    SameMembers(s.clusters, t.clusters);
    SameMembers(s.appSets, t.appSets);
    SameIndex(s.clusterApps, t.clusterApps);
    var u := t.(clusterApps := s.clusterApps);
    OneWay(s, u, app);
    OneWay(u, s, app);
  }

  lemma ProfileOrderIndependence(p: AppProfile, q: AppProfile, valid: set<string>)
    requires Items(p.appNames) == Items(q.appNames) && p.health == q.health
    requires Items(p.invalidAppNames) == Items(q.invalidAppNames)
    ensures InvalidOf(p, valid) == InvalidOf(q, valid)
    ensures ProfileSynced(p, valid) <==> ProfileSynced(q, valid)
  {
    assert forall n :: n in p.appNames <==> n in Items(p.appNames);
    assert forall n :: n in q.appNames <==> n in Items(q.appNames);
  }

  lemma {:induction false} IndexHolds(apps: seq<ClusterApp>, n: string)
    requires forall i, j | 0 <= i < j < |apps| :: apps[i].name != apps[j].name
    ensures n in ArlonIndex(apps) <==> exists a :: a in apps && a.name == n
    ensures n in ArlonIndex(apps) ==> ArlonIndex(apps)[n] in apps && ArlonIndex(apps)[n].name == n
  {
    if apps != [] {
      IndexHolds(apps[..|apps| - 1], n);
      assert apps == apps[..|apps| - 1] + [apps[|apps| - 1]];
    }
  }

  lemma {:induction false} SameIndex(apps: seq<ClusterApp>, apps': seq<ClusterApp>)
    requires multiset(apps) == multiset(apps')
    requires forall i, j | 0 <= i < j < |apps| :: apps[i].name != apps[j].name
    ensures ArlonIndex(apps) == ArlonIndex(apps')
  {
    SameMembers(apps, apps');
    forall i, j | 0 <= i < j < |apps'| ensures apps'[i].name != apps'[j].name {
      NamesStayUnique(apps, apps', i, j);
    }
    forall n ensures n in ArlonIndex(apps) <==> n in ArlonIndex(apps')
             ensures n in ArlonIndex(apps) ==> ArlonIndex(apps)[n] == ArlonIndex(apps')[n]
    {
      IndexHolds(apps, n);
      IndexHolds(apps', n);
    }
  }

  lemma NamesStayUnique(apps: seq<ClusterApp>, apps': seq<ClusterApp>, i: nat, j: nat)
    requires multiset(apps) == multiset(apps') && i < j < |apps'|
    requires forall k, l | 0 <= k < l < |apps| :: apps[k].name != apps[l].name
    ensures apps'[i].name != apps'[j].name
  {
    var a, b := apps'[i], apps'[j];
    SameMembers(apps, apps');
    assert a in apps && b in apps;
    if a == b {
      CountedTwice(apps', i, j);
      OnlyOnce(apps, a);
    }
  }

  lemma {:induction false} OnlyOnce(apps: seq<ClusterApp>, a: ClusterApp)
    requires forall k, l | 0 <= k < l < |apps| :: apps[k].name != apps[l].name
    ensures multiset(apps)[a] <= 1
  {
    if apps != [] {
      OnlyOnce(apps[1..], a);
      assert apps == [apps[0]] + apps[1..];
    }
  }
}
