/** The guarantees of AppProfileTheorems once more, in plain terms: every key,
    every shape and every value written out, none of the reconciler's own
    notions used. What these theorems say of a history of passes would not
    hold if one of those notions were defined differently. */
module AppProfileMeaning {
  import opened Wrappers
  import opened Text
  import opened AppProfileSpec
  import opened AppProfileTheorems

  /** The profile is named in the comma-separated list under the annotation. */
  ghost predicate Lists(annotations: Annotations, profile: string) {
    && annotations.Some? && "arlon.io/profiles" in annotations.value
    && var list := annotations.value["arlon.io/profiles"];
       list != "" && profile in Split(list, ',')
  }

  /** The Arlon application of a cluster, if any, decides which profiles it uses. */
  ghost predicate Uses(s: Snapshot, c: ArgoCluster, profile: string) {
    if exists a :: a in s.clusterApps && a.name == c.name
    then exists a :: a in s.clusterApps && a.name == c.name && Lists(a.annotations, profile)
    else Lists(c.annotations, profile)
  }

  ghost predicate UniqueNames(apps: seq<ClusterApp>) {
    forall i, j | 0 <= i < j < |apps| :: apps[i].name != apps[j].name
  }

  /** The app should run on a cluster of that name. */
  ghost predicate ShouldTarget(s: Snapshot, app: string, n: string) {
    exists c, p :: c in s.clusters && c.name == n && p in s.profiles && app in p.appNames && Uses(s, c, p.name)
  }

  /** The name is read from an element before the first malformed one. */
  ghost predicate Decodes(elements: seq<Element>, n: string) {
    exists k ::
      && 0 <= k < |elements| && (forall j | 0 <= j <= k :: elements[j].Object?)
      && "cluster_name" in elements[k].fields && elements[k].fields["cluster_name"] == JString(n)
  }

  /** The server is that of the last registered cluster of that name. */
  ghost predicate LastServer(clusters: seq<ArgoCluster>, n: string, server: string) {
    exists k ::
      && 0 <= k < |clusters| && clusters[k].name == n && clusters[k].server == server
      && forall j | k < j < |clusters| :: clusters[j].name != n
  }

  /** The element names a cluster that the app should target, with its server,
      and holds nothing else. */
  ghost predicate IsTarget(s: Snapshot, app: string, e: Element) {
    exists n, server ::
      && ShouldTarget(s, app, n) && LastServer(s.clusters, n, server)
      && e == Object(map["cluster_name" := JString(n), "cluster_server" := JString(server)])
  }

  // ------------------------------------------------------------ the notions

  lemma ListedMeans(annotations: Annotations, profile: string)
    ensures profile in Listed(Lookup(annotations, PROFILES_KEY)) <==> Lists(annotations, profile)
  {
  }

  lemma EffectiveMeans(s: Snapshot, c: ArgoCluster, profile: string)
    requires UniqueNames(s.clusterApps)
    ensures profile in Listed(Effective(c, ArlonIndex(s.clusterApps))) <==> Uses(s, c, profile)
  {
    var arlon := ArlonIndex(s.clusterApps);
    IndexHolds(s.clusterApps, c.name);
    ListedMeans(c.annotations, profile);
    if c.name in arlon {
      ListedMeans(arlon[c.name].annotations, profile);
      forall a | a in s.clusterApps && a.name == c.name ensures a == arlon[c.name] {
        var i :| 0 <= i < |s.clusterApps| && s.clusterApps[i] == a;
        var j :| 0 <= j < |s.clusterApps| && s.clusterApps[j] == arlon[c.name];
      }
    }
  }

  lemma {:induction false} DecodedMeans(elements: seq<Element>, n: string)
    ensures n in DecodedNames(elements) <==> Decodes(elements, n)
  {
    if elements != [] {
      var rest := elements[1..];
      DecodedMeans(rest, n);
      if Decodes(rest, n) && elements[0].Object? {
        var k :| && 0 <= k < |rest| && (forall j | 0 <= j <= k :: rest[j].Object?)
                 && "cluster_name" in rest[k].fields && rest[k].fields["cluster_name"] == JString(n);
        assert elements[k + 1] == rest[k];
        forall j | 0 <= j <= k + 1 ensures elements[j].Object? {
          assert j > 0 ==> elements[j] == rest[j - 1];
        }
      }
      if Decodes(elements, n) {
        var k :| && 0 <= k < |elements| && (forall j | 0 <= j <= k :: elements[j].Object?)
                 && "cluster_name" in elements[k].fields && elements[k].fields["cluster_name"] == JString(n);
        if k > 0 {
          assert rest[k - 1] == elements[k];
          forall j | 0 <= j <= k - 1 ensures rest[j].Object? {
            assert rest[j] == elements[j + 1];
          }
        }
      }
    }
  }

  lemma {:induction false} ServerMeans(clusters: seq<ArgoCluster>, n: string, server: string)
    requires exists c :: c in clusters && c.name == n
    ensures ServerOf(n, clusters) == server <==> LastServer(clusters, n, server)
  {
    var rest, last := clusters[..|clusters| - 1], clusters[|clusters| - 1];
    if last.name == n {
      assert LastServer(clusters, n, last.server);
    } else {
      ServerMeans(rest, n, server);
      if k :| && 0 <= k < |rest| && rest[k].name == n && rest[k].server == server
              && forall j | k < j < |rest| :: rest[j].name != n {
        assert clusters[k] == rest[k];
        forall j | k < j < |clusters| ensures clusters[j].name != n {
          assert j < |rest| ==> clusters[j] == rest[j];
        }
      }
      if k :| && 0 <= k < |clusters| && clusters[k].name == n && clusters[k].server == server
              && forall j | k < j < |clusters| :: clusters[j].name != n {
        assert rest[k] == clusters[k];
        forall j | k < j < |rest| ensures rest[j].name != n {
          assert rest[j] == clusters[j];
        }
      }
    }
  }

  lemma TargetsMean(s: Snapshot, app: string, n: string)
    requires UniqueNames(s.clusterApps) && exists a :: a in s.appSets && a.name == app
    ensures n in Targets(app, s) <==> ShouldTarget(s, app, n)
  {
    forall c, p ensures p in Listed(Effective(c, ArlonIndex(s.clusterApps))) <==> Uses(s, c, p) {
      EffectiveMeans(s, c, p);
    }
    hide Uses, Effective, Listed, ArlonIndex;
  }

  // ------------------------------------------------------------ the guarantees

  /** The documented rule, in full: after a completed history an app with one
      list generator is read as targeting exactly the clusters it should. */
  lemma AppsLandWhereListed(h: seq<Pass>, i: nat, elements: seq<Element>)
    requires Completes(h) && i < |h[0].before.appSets| == |h[|h| - 1].after.appSets|
    requires h[0].before.appSets[i].generators == [ListGenerator(elements)] && UniqueNames(h[0].before.clusterApps)
    ensures var s, a := h[0].before, h[|h| - 1].after.appSets[i];
            && a.name == s.appSets[i].name && |a.generators| == 1 && a.generators[0].ListGenerator?
            && forall n :: Decodes(a.generators[0].elements, n) <==> ShouldTarget(s, s.appSets[i].name, n)
  {
    var s, t := h[0].before, h[|h| - 1].after;
    Refinement(h, i);
    Completed(h);
    assert AppStep(s.appSets[i], t.appSets[i], s);
    assert s.appSets[i] in s.appSets;
    forall n
      ensures Decodes(t.appSets[i].generators[0].elements, n) <==> ShouldTarget(s, s.appSets[i].name, n)
    {
      DecodedMeans(t.appSets[i].generators[0].elements, n);
      Transpose(s, s.appSets[i].name, n);
      TargetsMean(s, s.appSets[i].name, n);
    }
  }

  /** No other app is ever touched: without a generator, with several, or with
      one that is not a list. */
  lemma OtherAppsStay(h: seq<Pass>, i: nat)
    requires h != [] && IsHistory(h) && i < |h[0].before.appSets| == |h[|h| - 1].after.appSets|
    requires |h[0].before.appSets[i].generators| != 1 || !h[0].before.appSets[i].generators[0].ListGenerator?
    ensures h[|h| - 1].after.appSets[i] == h[0].before.appSets[i]
  {
    WritesConserved(h);
    assert AppStep(h[0].before.appSets[i], h[|h| - 1].after.appSets[i], h[0].before);
  }

  /** What a rewrite writes: one element per cluster, with its name and the
      server of the last registered cluster of that name, and nothing else. */
  lemma RewrittenElements(h: seq<Pass>, i: nat)
    requires h != [] && IsHistory(h) && i < |h[0].before.appSets| == |h[|h| - 1].after.appSets|
    requires h[|h| - 1].after.appSets[i] != h[0].before.appSets[i] && UniqueNames(h[0].before.clusterApps)
    ensures var s, a := h[0].before, h[|h| - 1].after.appSets[i];
            && |a.generators| == 1 && a.generators[0].ListGenerator? && Distinct(a.generators[0].elements)
            && forall e :: e in a.generators[0].elements <==> IsTarget(s, s.appSets[i].name, e)
  {
    var s, a := h[0].before, h[|h| - 1].after.appSets[i];
    RewrittenExactly(h, i);
    WritesConserved(h);
    assert AppStep(s.appSets[i], a, s) && s.appSets[i] in s.appSets;
    var elements := a.generators[0].elements;
    SameItems(elements, FreshElements(Targets(s.appSets[i].name, s), s.clusters));
    forall e ensures e in elements <==> IsTarget(s, s.appSets[i].name, e) {
      FreshMeans(s, s.appSets[i].name, e);
    }
    hide *;
  }

  lemma SameItems<T>(list: seq<T>, items: set<T>)
    ensures multiset(list) == multiset(items) ==> forall x :: x in list <==> x in items
  {
    assert forall x :: x in list <==> x in multiset(list);
    assert forall x :: x in items <==> x in multiset(items);
  }

  lemma OnlyItem<T>(list: seq<T>, x: T)
    requires multiset(list) == multiset({x})
    ensures list == [x]
  {
    assert |list| == |multiset(list)| == 1;
    assert list[0] in multiset(list);
  }

  lemma FreshMeans(s: Snapshot, app: string, e: Element)
    requires UniqueNames(s.clusterApps) && exists a :: a in s.appSets && a.name == app
    ensures e in FreshElements(Targets(app, s), s.clusters) <==> IsTarget(s, app, e)
  {
    if e in FreshElements(Targets(app, s), s.clusters) {
      var n :| n in Targets(app, s) && e == NewElement(n, ServerOf(n, s.clusters));
      TargetsMean(s, app, n);
      ServerMeans(s.clusters, n, ServerOf(n, s.clusters));
      assert e == Object(map["cluster_name" := JString(n), "cluster_server" := JString(ServerOf(n, s.clusters))]);
    }
    if n, server :| && ShouldTarget(s, app, n) && LastServer(s.clusters, n, server)
                    && e == Object(map["cluster_name" := JString(n), "cluster_server" := JString(server)]) {
      TargetsMean(s, app, n);
      ServerMeans(s.clusters, n, server);
      assert e == NewElement(n, ServerOf(n, s.clusters));
    }
  }

  /** After a completed history every cluster is annotated with the list of its
      Arlon application. An empty list counts as none: it removes a list that
      the cluster had, and otherwise the cluster is left alone. */
  lemma ClustersCarryTheList(h: seq<Pass>, i: nat, a: ClusterApp)
    requires Completes(h) && i < |h[0].before.clusters| == |h[|h| - 1].after.clusters|
    requires UniqueNames(h[0].before.clusterApps)
    requires a in h[0].before.clusterApps && a.name == h[0].before.clusters[i].name
    ensures var before, c := h[0].before.clusters[i], h[|h| - 1].after.clusters[i];
            var wanted := a.annotations.Some? && "arlon.io/profiles" in a.annotations.value
                          && a.annotations.value["arlon.io/profiles"] != "";
            if wanted
            then c.annotations.Some? && "arlon.io/profiles" in c.annotations.value
                 && c.annotations.value["arlon.io/profiles"] == a.annotations.value["arlon.io/profiles"]
            else if before.annotations.Some? && "arlon.io/profiles" in before.annotations.value
                    && before.annotations.value["arlon.io/profiles"] != ""
            then c.annotations.Some? && "arlon.io/profiles" !in c.annotations.value
            else c == before
  {
    CompletedCluster(h, i);
    UniqueIsFound(h[0].before.clusterApps, a);
    hide Completes, ArlonIndex;
  }

  lemma CompletedCluster(h: seq<Pass>, i: nat)
    requires Completes(h) && i < |h[0].before.clusters| == |h[|h| - 1].after.clusters|
    ensures var arlon, c, c' := ArlonIndex(h[0].before.clusterApps), h[0].before.clusters[i],
                                h[|h| - 1].after.clusters[i];
            ClusterStep(c, c', arlon) && ClusterSynced(c', arlon)
  {
    Completed(h);
    assert h[|h| - 1].after.clusters[i] in h[|h| - 1].after.clusters;
  }

  lemma UniqueIsFound(apps: seq<ClusterApp>, a: ClusterApp)
    requires UniqueNames(apps) && a in apps
    ensures a.name in ArlonIndex(apps) && ArlonIndex(apps)[a.name] == a
  {
    IndexHolds(apps, a.name);
    var j :| 0 <= j < |apps| && apps[j] == a;
    var k :| 0 <= k < |apps| && apps[k] == ArlonIndex(apps)[a.name];
  }

  /** A cluster without an Arlon application keeps the list it has. */
  lemma OwnListsStay(h: seq<Pass>, i: nat)
    requires Completes(h) && i < |h[0].before.clusters| == |h[|h| - 1].after.clusters|
    requires forall a | a in h[0].before.clusterApps :: a.name != h[0].before.clusters[i].name
    ensures h[|h| - 1].after.clusters[i] == h[0].before.clusters[i]
  {
    CompletedCluster(h, i);
    OnlyListedNames(h[0].before.clusterApps, h[0].before.clusters[i].name);
  }

  lemma {:induction false} OnlyListedNames(apps: seq<ClusterApp>, n: string)
    requires forall a | a in apps :: a.name != n
    ensures n !in ArlonIndex(apps)
  {
    if apps != [] {
      OnlyListedNames(apps[..|apps| - 1], n);
    }
  }

  lemma CompletedApp(h: seq<Pass>, i: nat)
    requires Completes(h) && i < |h[0].before.appSets|
    ensures var s, t := h[0].before, h[|h| - 1].after;
            |t.appSets| == |s.appSets| && AppStep(s.appSets[i], t.appSets[i], s) && AppSynced(t.appSets[i], s)
  {
    var s, t := h[0].before, h[|h| - 1].after;
    Completed(h);
    InputsPreserved(s, t);
    var a := t.appSets[i];
    assert a in t.appSets && AppSynced(a, t) && AppStep(s.appSets[i], a, s);
    assert Targets(a.name, t) == Targets(a.name, s);
    hide Completes, Steps, InSync, AppStep, Targets, DecodedNames;
  }

  lemma FilledSingle(a: AppSet)
    requires AppStep(Single([]).appSets[0], a, Single([])) && AppSynced(a, Single([]))
    ensures a == AppSet("a", [ListGenerator(
              [Object(map["cluster_name" := JString("c"), "cluster_server" := JString("new")])])])
  {
    SingleTargets([]);
    hide Targets, FreshElements, ServerOf;
    assert DecodedNames([]) == {};
    OnlyItem(a.generators[0].elements, NewElement("c", "new"));
  }

  /** An instance: the empty list generator that every new app starts with is
      filled with the one cluster that the app should target. */
  lemma NewAppIsFilled(h: seq<Pass>)
    requires Completes(h) && h[0].before == Single([])
    ensures h[|h| - 1].after.appSets ==
              [AppSet("a", [ListGenerator(
                 [Object(map["cluster_name" := JString("c"), "cluster_server" := JString("new")])])])]
  {
    CompletedApp(h, 0);
    hide Completes, AppStep, AppSynced;
    FilledSingle(h[|h| - 1].after.appSets[0]);
  }
}
