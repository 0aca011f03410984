/** Both controllers together: the profiles annotation flows from the Cluster
    resource to its cluster app, to the ArgoCD cluster and to the generators. */
module EndToEnd {
  import opened Wrappers
  import A = AppProfileSpec
  import T = AppProfileTheorems
  import Meaning = AppProfileMeaning
  import M = ClusterMachine
  import P = ClusterProgress

  /** The snapshot lists the cluster app of w, under a unique name. */
  ghost predicate ListsApp(s: A.Snapshot, w: M.World)
    requires w.cr.Some? && w.clusterApp.Some?
  {
    && A.ClusterApp(w.cr.value.name, w.clusterApp.value.annotations) in s.clusterApps
    && Meaning.UniqueNames(s.clusterApps)
  }

  lemma AnnotationPushed(w: M.World)
    requires P.AtRest(w)
    ensures w.clusterApp.Some?
    ensures Lookup(w.clusterApp.value.annotations, M.PROFILES_KEY) == Lookup(w.cr.value.annotations, M.PROFILES_KEY)
  {
  }

  /** End to end: once enough reconciles of a Cluster resource were failure-free,
      and then global passes ran, any of them aborted, until one completed, the
      apps targeting its registered cluster are the union of the valid apps of
      the profiles in the resource's own annotation - none if it has none. */
  lemma {:induction false} Propagation(w: M.World, rounds: seq<P.Round>, h: seq<A.Pass>, c: A.ArgoCluster, i: nat)
    requires P.Live(w) && P.CleanRounds(rounds) >= P.Missing(w)
    requires T.Completes(h) && i < |h[0].before.appSets| == |h[|h| - 1].after.appSets|
    requires |h[0].before.appSets[i].generators| == 1 && h[0].before.appSets[i].generators[0].ListGenerator?
    requires var w' := P.DoRounds(w, rounds + [P.Clean]);
             w'.cr.Some? && w'.clusterApp.Some? && ListsApp(h[0].before, w')
             && c in h[0].before.clusters && c.name == w'.cr.value.name
    ensures var w' := P.DoRounds(w, rounds + [P.Clean]);
            var s, app := h[0].before, h[|h| - 1].after.appSets[i];
            && |app.generators| == 1 && app.generators[0].ListGenerator?
            && (w'.cr.value.name in A.DecodedNames(app.generators[0].elements) <==>
                  exists p :: p in s.profiles && s.appSets[i].name in p.appNames
                              && Meaning.Lists(w'.cr.value.annotations, p.name))
  {
    P.CreationConverges(w, rounds);
    var w' := P.DoRounds(w, rounds + [P.Clean]);
    var s := h[0].before;
    AnnotationPushed(w');
    Meaning.UniqueIsFound(s.clusterApps, A.ClusterApp(w'.cr.value.name, w'.clusterApp.value.annotations));
    T.Refinement(h, i);
    assert s.appSets[i].name in A.ValidNames(s.appSets);
    forall d | d in s.clusters && d.name == w'.cr.value.name
      ensures A.Effective(d, A.ArlonIndex(s.clusterApps)) == Lookup(w'.cr.value.annotations, M.PROFILES_KEY)
    {
    }
  }
}
