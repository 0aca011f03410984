/** What holds in every reachable state of the Cluster controller, at every
    call boundary, under failures, crashes and deletion requests at any time. */
module ClusterSafety {
  import opened Wrappers
  import opened ClusterMachine

  ghost predicate Overridden(cl: Cluster) {
    cl.spec.override_.Some?
  }

  /** What the user can rely on: no orphans, teardown in order, a truthful
      "created" state. */
  ghost predicate Safe(w: World) {
    // teardown order: while the cluster app exists, so does a live arlon app
    && (w.clusterApp.Some? ==> w.arlonApp.Some? && !w.arlonApp.value.deleting)
    // no orphans
    && (w.clusterApp.Some? || w.arlonApp.Some? ==> w.cr.Some? && w.cr.value.finalizer)
    // the controller only deletes apps of a resource under deletion ...
    && (w.arlonApp.Some? && w.arlonApp.value.deleting ==> w.cr.value.deleting)
    && (w.clusterApp.Some? && w.clusterApp.value.deleting ==> w.cr.value.deleting)
    // ... and the override directory is dealt with before the cluster app
    && (w.clusterApp.Some? && w.clusterApp.value.deleting ==>
          !(Overridden(w.cr.value) && w.cr.value.status.overrideSuccessful))
    && (w.cr.Some? && !w.cr.value.deleting ==> Truthful(w.cr.value.status, w.cr.value, w))
    // the apps deploy what the resource specifies
    && (w.clusterApp.Some? ==> DeploysCluster(w.cr.value, w.clusterApp.value.source))
    && (w.arlonApp.Some? ==> DeploysChart(w.cr.value, w.arlonApp.value.source))
  }

  /** The template itself, or the override directory where there is one. */
  ghost predicate DeploysCluster(cl: Cluster, source: RepoSpec) {
    match cl.spec.override_
    case None => source == cl.spec.template
    case Some(o) =>
      source.url == o.repo.url && source.revision == o.repo.revision && source.path == o.repo.path + "/" + cl.name
  }

  /** The chart of the resource, or Arlon's own. */
  ghost predicate DeploysChart(cl: Cluster, source: RepoSpec) {
    match cl.spec.arlonHelmChart
    case Some(chart) => source == chart
    case None =>
      && source.url == "https://github.com/arlonproj/arlon.git"
      && source.path == "pkg/cluster/manifests" && source.revision == "v0.10.0"
  }

  /** The override directory as specified: the patch, on top of the template. */
  ghost predicate Patched(cl: Cluster, git: map<DirKey, PatchDir>) {
    cl.spec.override_.Some? ==>
      && WrittenKey(cl) in git
      && git[WrittenKey(cl)].patch == cl.spec.override_.value.patch && git[WrittenKey(cl)].base == cl.spec.template
  }

  /** A status that claims no more than what exists. */
  ghost predicate Truthful(status: Status, cl: Cluster, w: World) {
    && (status.innerClusterName != "" ==> status.innerClusterName == w.templateName)
    && (status.overrideSuccessful ==> Patched(cl, w.git))
    && (status.state == "created" ==>
          && w.arlonApp.Some? && w.clusterApp.Some? && status.innerClusterName != ""
          && (Overridden(cl) ==> status.overrideSuccessful))
  }

  /** Facts about the world alone that the proof needs on top of Safe. */
  ghost predicate WorldInv(w: World) {
    && Safe(w) && w.templateName != ""
    && (w.cr.Some? && w.cr.value.deleting ==> w.cr.value.finalizer)
  }

  /** The in-memory copy is the stored resource, up to what the user changed. */
  ghost predicate Held(cl: Cluster, w: World) {
    && w.cr.Some? && w.cr.value.finalizer && cl.finalizer
    && w.cr.value.name == cl.name && w.cr.value.spec == cl.spec
    && (cl.deleting ==> w.cr.value.deleting)
  }

  ghost predicate NothingDeleting(w: World) {
    && (w.arlonApp.Some? ==> !w.arlonApp.value.deleting)
    && (w.clusterApp.Some? ==> !w.clusterApp.value.deleting)
  }

  /** While creating: the copy is current and its status already holds. */
  ghost predicate Creating(cl: Cluster, w: World) {
    && Held(cl, w) && !cl.deleting && NothingDeleting(w)
    && w.cr.value.status == cl.status && Truthful(cl.status, cl, w)
  }

  ghost predicate Prepared(cl: Cluster, w: World) {
    && Creating(cl, w) && cl.status.innerClusterName != ""
    && (Overridden(cl) ==> cl.status.overrideSuccessful)
  }

  ghost predicate Destroying(cl: Cluster, w: World) {
    Held(cl, w) && cl.deleting && w.cr.value.status == cl.status
  }

  /** Before the finalizer is added the resource may vanish at any time. */
  ghost predicate Unclaimed(cl: Cluster, w: World) {
    && !cl.finalizer && !cl.deleting && w.arlonApp.None? && w.clusterApp.None?
    && Truthful(cl.status, cl, w)
    && (w.cr.Some? ==> !w.cr.value.finalizer && w.cr.value.name == cl.name && w.cr.value.spec == cl.spec)
  }

  /** The status about to be written is safe to write. */
  ghost predicate Writable(cl: Cluster, w: World) {
    || Unclaimed(cl, w)
    || (Held(cl, w) && !cl.deleting && NothingDeleting(w) && Truthful(cl.status, cl, w))
    || (Held(cl, w) && cl.deleting
        && (w.clusterApp.Some? && w.clusterApp.value.deleting ==> !(Overridden(cl) && cl.status.overrideSuccessful)))
  }

  ghost predicate PcInv(pc: Pc, w: World) {
    match pc
    case Idle => true
    case ReadCluster => true
    case Connect(cl) =>
      if cl.deleting then Destroying(cl, w) else if cl.finalizer then Creating(cl, w) else Unclaimed(cl, w)
    case AddFinalizer(cl) => Unclaimed(cl, w)
    case ValidateTemplate(cl) => Creating(cl, w) && cl.status.innerClusterName == ""
    case DeployPatch(cl) => Creating(cl, w) && Overridden(cl) && cl.status.innerClusterName != ""
    case ReadArlonApp(cl) => Prepared(cl, w)
    case CheckClusterApp(cl) => Prepared(cl, w) && w.arlonApp.None?
    case CreateArlonApp(cl) => Prepared(cl, w) && w.arlonApp.None? && w.clusterApp.None?
    case ReadClusterApp(cl) => Prepared(cl, w) && w.arlonApp.Some?
    case CreateClusterApp(cl) => Prepared(cl, w) && w.arlonApp.Some? && w.clusterApp.None?
    case UpdateClusterApp(cl, app) => Prepared(cl, w) && w.arlonApp.Some? && w.clusterApp.Some?
    case WriteStatus(cl) => Writable(cl, w)
    case FindClusterApp(cl) => Destroying(cl, w)
    case DeleteOverride(cl, app) => Destroying(cl, w) && Overridden(cl) && cl.status.overrideSuccessful
    case DeleteClusterApp(cl) => Destroying(cl, w) && !(Overridden(cl) && cl.status.overrideSuccessful)
    case FindArlonApp(cl) => Destroying(cl, w) && w.clusterApp.None?
    case DeleteArlonApp(cl) => Destroying(cl, w) && w.clusterApp.None?
    case RemoveFinalizer(cl) => Destroying(cl, w) && w.clusterApp.None? && w.arlonApp.None?
  }

  ghost predicate Inv(s: State) {
    WorldInv(s.w) && PcInv(s.pc, s.w)
  }

  lemma DeletionKeepsInv(s: State)
    requires Inv(s)
    ensures Inv(Next(s, Env(RequestDeletion)))
  {
    if s.w.cr.Some? && s.w.cr.value.finalizer {
      assert EnvEffect(s.w, RequestDeletion) == s.w.(cr := Some(s.w.cr.value.(deleting := true)));
    }
  }

  function Annotated(w: World, annotations: Annotations): World
    requires w.cr.Some?
  {
    w.(cr := Some(w.cr.value.(annotations := annotations)))
  }

  lemma AnnotatingKeepsWorld(w: World, annotations: Annotations)
    requires w.cr.Some? && WorldInv(w)
    ensures WorldInv(Annotated(w, annotations))
  {
  }

  lemma AnnotatingKeepsPc(pc: Pc, w: World, annotations: Annotations)
    requires w.cr.Some? && PcInv(pc, w)
    ensures PcInv(pc, Annotated(w, annotations))
  {
    hide WrittenKey;
  }

  lemma AnnotatingKeepsInv(s: State, annotations: Annotations)
    requires Inv(s)
    ensures Inv(Next(s, Env(Annotate(annotations))))
  {
    if s.w.cr.Some? {
      AnnotatingKeepsWorld(s.w, annotations);
      AnnotatingKeepsPc(s.pc, s.w, annotations);
      hide WorldInv, PcInv;
    }
  }

  lemma ArgoKeepsInv(s: State, step: EnvStep)
    requires Inv(s) && (step.FinishClusterApp? || step.FinishArlonApp?)
    ensures Inv(Next(s, Env(step)))
  {
    match step
    case FinishClusterApp =>
    case FinishArlonApp =>
    case _ =>
  }

  lemma EnvKeepsInv(s: State, step: EnvStep)
    requires Inv(s)
    ensures Inv(Next(s, Env(step)))
  {
    hide Inv, Next;
    match step
    case RequestDeletion => DeletionKeepsInv(s);
    case Annotate(annotations) => AnnotatingKeepsInv(s, annotations);
    case FinishClusterApp => ArgoKeepsInv(s, step);
    case FinishArlonApp => ArgoKeepsInv(s, step);
  }

  lemma StartKeepsInv(s: State, fault: Fault)
    requires Inv(s) && (s.pc.ReadCluster? || s.pc.Connect? || s.pc.AddFinalizer?)
    ensures Inv(DoCall(s, fault))
  {
    match s.pc
    case ReadCluster => hide WrittenKey, ConstructClusterApp, RecordedKey, SyncedApp;
    case Connect(_) => hide WrittenKey, ConstructClusterApp, RecordedKey, SyncedApp;
    case AddFinalizer(_) => hide RecordedKey, SyncedApp;
    case _ =>
  }

  lemma SetupKeepsInv(s: State, fault: Fault)
    requires Inv(s) && (s.pc.ValidateTemplate? || s.pc.DeployPatch?)
    ensures Inv(DoCall(s, fault))
  {
    match s.pc
    case ValidateTemplate(_) =>
    case DeployPatch(_) =>
    case _ =>
  }

  lemma ArlonAppKeepsInv(s: State, fault: Fault)
    requires Inv(s) && (s.pc.ReadArlonApp? || s.pc.CheckClusterApp? || s.pc.CreateArlonApp?)
    ensures Inv(DoCall(s, fault))
  {
    match s.pc
    case ReadArlonApp(_) =>
    case CheckClusterApp(_) =>
    case CreateArlonApp(_) =>
    case _ =>
  }

  lemma ReadClusterAppKeepsInv(s: State, fault: Fault)
    requires Inv(s) && s.pc.ReadClusterApp?
    ensures Inv(DoCall(s, fault))
  {
  }

  lemma ClusterAppKeepsInv(s: State, fault: Fault)
    requires Inv(s) && (s.pc.CreateClusterApp? || s.pc.UpdateClusterApp?)
    ensures Inv(DoCall(s, fault))
  {
    match s.pc
    case CreateClusterApp(_) =>
    case UpdateClusterApp(_, _) =>
    case _ =>
  }

  lemma StatusKeepsInv(s: State, fault: Fault)
    requires Inv(s) && s.pc.WriteStatus?
    ensures Inv(DoCall(s, fault))
  {
  }

  lemma FindingKeepsInv(s: State, fault: Fault)
    requires Inv(s) && s.pc.FindClusterApp?
    ensures Inv(DoCall(s, fault))
  {
    hide WrittenKey, ConstructArlonApp, SyncedApp;
  }

  lemma DeletingKeepsInv(s: State, fault: Fault)
    requires Inv(s) && s.pc.DeleteClusterApp?
    ensures Inv(DoCall(s, fault))
  {
    hide WrittenKey, ConstructArlonApp, SyncedApp;
  }

  lemma OverrideKeepsInv(s: State, fault: Fault)
    requires Inv(s) && s.pc.DeleteOverride?
    ensures Inv(DoCall(s, fault))
  {
    hide WrittenKey, ConstructArlonApp, SyncedApp;
  }

  lemma ReleaseKeepsInv(s: State, fault: Fault)
    requires Inv(s) && (s.pc.FindArlonApp? || s.pc.DeleteArlonApp? || s.pc.RemoveFinalizer?)
    ensures Inv(DoCall(s, fault))
  {
    match s.pc
    case FindArlonApp(_) =>
    case DeleteArlonApp(_) =>
    case RemoveFinalizer(_) =>
    case _ =>
  }

  lemma CallKeepsInv(s: State, fault: Fault)
    requires Inv(s) && !s.pc.Idle?
    ensures Inv(DoCall(s, fault))
  {
    hide Inv, DoCall;
    match s.pc
    case ReadCluster => StartKeepsInv(s, fault);
    case Connect(_) => StartKeepsInv(s, fault);
    case AddFinalizer(_) => StartKeepsInv(s, fault);
    case ValidateTemplate(_) => SetupKeepsInv(s, fault);
    case DeployPatch(_) => SetupKeepsInv(s, fault);
    case ReadArlonApp(_) => ArlonAppKeepsInv(s, fault);
    case CheckClusterApp(_) => ArlonAppKeepsInv(s, fault);
    case CreateArlonApp(_) => ArlonAppKeepsInv(s, fault);
    case ReadClusterApp(_) => ReadClusterAppKeepsInv(s, fault);
    case CreateClusterApp(_) => ClusterAppKeepsInv(s, fault);
    case UpdateClusterApp(_, _) => ClusterAppKeepsInv(s, fault);
    case WriteStatus(_) => StatusKeepsInv(s, fault);
    case FindClusterApp(_) => FindingKeepsInv(s, fault);
    case DeleteOverride(_, _) => OverrideKeepsInv(s, fault);
    case DeleteClusterApp(_) => DeletingKeepsInv(s, fault);
    case _ => ReleaseKeepsInv(s, fault);
  }

  lemma NextKeepsInv(s: State, a: Action)
    requires Inv(s)
    ensures Inv(Next(s, a))
  {
    match a
    case Begin =>
    case Call(fault) => if !s.pc.Idle? { CallKeepsInv(s, fault); }
    case Env(step) => EnvKeepsInv(s, step);
    case Crash =>
  }

  lemma {:induction false} RunKeepsInv(s: State, actions: seq<Action>)
    requires Inv(s)
    ensures Inv(Run(s, actions))
    decreases |actions|
  {
    if actions != [] {
      NextKeepsInv(s, actions[0]);
      RunKeepsInv(Next(s, actions[0]), actions[1..]);
    }
  }

  /** The annotations that a cluster app is created with. */
  lemma CreatedAnnotations(s: State, fault: Fault)
    requires Inv(s) && s.pc.CreateClusterApp? && fault != Lost
    ensures var w' := DoCall(s, fault).w;
            var cl := s.pc.cl;
            var repo := if cl.spec.override_.Some? then cl.spec.override_.value.repo else cl.spec.template;
            && s.w.clusterApp.None? && w'.clusterApp.Some? && !w'.clusterApp.value.deleting
            && cl.status.innerClusterName == s.w.templateName
            && w'.clusterApp.value.annotations == Some(map[
                 "arlon.io/basecluster-name" := s.w.templateName,
                 "arlon.io/basecluster-repo-url" := repo.url,
                 "arlon.io/basecluster-repo-revision" := repo.revision,
                 "arlon.io/basecluster-repo-path" := repo.path,
                 "arlon.io/basecluster-overridden" := if cl.spec.override_.Some? then "true" else "false"])
  {
  }

  /** And the annotations that an arlon app is created with. */
  lemma CreatedChartAnnotations(s: State, fault: Fault)
    requires Inv(s) && s.pc.CreateArlonApp? && fault != Lost
    ensures var w' := DoCall(s, fault).w;
            && s.w.arlonApp.None? && w'.arlonApp.Some? && !w'.arlonApp.value.deleting
            && w'.arlonApp.value.annotations ==
               Some(map["arlon.io/clusterspec" := "", "arlon.io/profile" := "no-profile-for-gen2"])
  {
  }

  /** Every reachable state is safe. A run may stop at any call boundary, so
      this covers all intermediate states too. */
  lemma {:induction false} Safety(w: World, actions: seq<Action>)
    requires Initial(w)
    ensures Safe(Run(State(w, Idle), actions).w)
  {
    RunKeepsInv(State(w, Idle), actions);
  }
}
