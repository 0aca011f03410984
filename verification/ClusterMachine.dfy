/** The Cluster controller (controllers/cluster_controller.go) as a state
    machine whose steps are single API calls. Between two calls the environment
    may act and the controller may crash; any call may fail, or take effect and
    still report failure. */
module ClusterMachine {
  import opened Wrappers
  import GoPath

  datatype RepoSpec = RepoSpec(url: string, path: string, revision: string)

  datatype OverrideSpec = OverrideSpec(patch: string, repo: RepoSpec)

  datatype ClusterSpec = ClusterSpec(template: RepoSpec, override_: Option<OverrideSpec>,
                                     arlonHelmChart: Option<RepoSpec>)

  datatype Status = Status(state: string, innerClusterName: string, overrideSuccessful: bool)

  /** The Cluster custom resource. */
  datatype Cluster = Cluster(name: string, annotations: Annotations, spec: ClusterSpec, status: Status,
                             finalizer: bool, deleting: bool)

  /** An ArgoCD application; `deleting` until ArgoCD has finished its deletion. */
  datatype App = App(annotations: Annotations, source: RepoSpec, deleting: bool)

  /** A directory of a git repository at a revision: the components that lead
      to it from the root, however the path to it was spelled. */
  datatype DirKey = DirKey(url: string, revision: string, path: seq<string>)

  /** What the git library does when told to remove a directory by an absolute
      path: its file system finds it below the root of the clone, but its index
      holds relative names. */
  datatype AbsoluteRemove = Removes | Keeps | Refuses

  /** The override directory: a patch on top of a base. */
  datatype PatchDir = PatchDir(patch: string, base: RepoSpec)

  /** `templateName` is the inner name that template validation finds; it is
      never empty (see BaseCluster.ValidatedNameIsNonempty). It and
      `absoluteRemove` never change. */
  datatype World = World(cr: Option<Cluster>, arlonApp: Option<App>, clusterApp: Option<App>,
                         git: map<DirKey, PatchDir>, templateName: string, absoluteRemove: AbsoluteRemove)

  const PROFILES_KEY := "arlon.io/profiles"
  const NAME_KEY := "arlon.io/basecluster-name"
  const URL_KEY := "arlon.io/basecluster-repo-url"
  const REVISION_KEY := "arlon.io/basecluster-repo-revision"
  const PATH_KEY := "arlon.io/basecluster-repo-path"
  const OVERRIDDEN_KEY := "arlon.io/basecluster-overridden"

  const DEFAULT_CHART := RepoSpec("https://github.com/arlonproj/arlon.git", "pkg/cluster/manifests", "v0.10.0")

  /** Where DeployPatchToGit writes the override directory. */
  function WrittenKey(cl: Cluster): DirKey
    requires cl.spec.override_.Some?
  {
    var repo := cl.spec.override_.value.repo;
    DirKey(repo.url, repo.revision, GoPath.Components(GoPath.Join2(repo.path, cl.name)))
  }

  /** The path that DeleteOverridesDir takes from the cluster app's annotations. */
  function RecordedPath(app: App, name: string): string {
    Lookup(app.annotations, PATH_KEY) + "/" + name
  }

  /** The directory this path leads to. */
  function RecordedKey(app: App, name: string): DirKey {
    DirKey(Lookup(app.annotations, URL_KEY), Lookup(app.annotations, REVISION_KEY),
           GoPath.Components(RecordedPath(app, name)))
  }

  /** What removing by the recorded path does. */
  function Removal(w: World, app: App, name: string): AbsoluteRemove {
    if GoPath.Rooted(RecordedPath(app, name)) then w.absoluteRemove else Removes
  }

  /** The repository that a cluster app points to. */
  function Source(cl: Cluster): RepoSpec {
    if cl.spec.override_.Some? then cl.spec.override_.value.repo else cl.spec.template
  }

  function ConstructClusterApp(cl: Cluster): App {
    var repo, overridden := Source(cl), cl.spec.override_.Some?;
    App(Some(map[NAME_KEY := cl.status.innerClusterName, URL_KEY := repo.url, REVISION_KEY := repo.revision,
                 PATH_KEY := repo.path, OVERRIDDEN_KEY := if overridden then "true" else "false"]),
        repo.(path := if overridden then repo.path + "/" + cl.name else repo.path), false)
  }

  function ConstructArlonApp(cl: Cluster): App {
    App(Some(map["arlon.io/clusterspec" := "", "arlon.io/profile" := "no-profile-for-gen2"]),
        if cl.spec.arlonHelmChart.Some? then cl.spec.arlonHelmChart.value else DEFAULT_CHART, false)
  }

  /** The cluster app after the profiles annotation was pushed to it, or None
      when nothing needs to change. */
  function SyncedApp(cl: Cluster, app: App): Option<App> {
    if cl.annotations.Some?
       && (app.annotations.None? || Lookup(cl.annotations, PROFILES_KEY) != Lookup(app.annotations, PROFILES_KEY)) then
      var entries := if app.annotations.Some? then app.annotations.value else map[];
      Some(app.(annotations := Some(entries[PROFILES_KEY := Lookup(cl.annotations, PROFILES_KEY)])))
    else if cl.annotations.None? && app.annotations.Some? then
      Some(app.(annotations := None))
    else
      None
  }

  /** Where the controller stands; `cl` is its in-memory copy of the resource. */
  datatype Pc =
    | Idle
    | ReadCluster
    | Connect(cl: Cluster)
    | AddFinalizer(cl: Cluster)
    | ValidateTemplate(cl: Cluster)
    | DeployPatch(cl: Cluster)
    | ReadArlonApp(cl: Cluster)
    | CheckClusterApp(cl: Cluster)
    | CreateArlonApp(cl: Cluster)
    | ReadClusterApp(cl: Cluster)
    | CreateClusterApp(cl: Cluster)
    | UpdateClusterApp(cl: Cluster, app: App)
    | WriteStatus(cl: Cluster)
    | FindClusterApp(cl: Cluster)
    | DeleteOverride(cl: Cluster, app: App)
    | DeleteClusterApp(cl: Cluster)
    | FindArlonApp(cl: Cluster)
    | DeleteArlonApp(cl: Cluster)
    | RemoveFinalizer(cl: Cluster)

  datatype State = State(w: World, pc: Pc)

  datatype EnvStep =
    | RequestDeletion
    | Annotate(annotations: Annotations)
    | FinishClusterApp
    | FinishArlonApp

  datatype Action = Begin | Call(fault: Fault) | Env(step: EnvStep) | Crash

  // ------------------------------------------------------------ the API server

  function EnvEffect(w: World, step: EnvStep): World {
    match step
    case RequestDeletion =>
      if w.cr.None? then w
      else if w.cr.value.finalizer then w.(cr := Some(w.cr.value.(deleting := true)))
      else w.(cr := None)
    case Annotate(annotations) =>
      if w.cr.None? then w else w.(cr := Some(w.cr.value.(annotations := annotations)))
    case FinishClusterApp =>
      if w.clusterApp.Some? && w.clusterApp.value.deleting then w.(clusterApp := None) else w
    case FinishArlonApp =>
      if w.arlonApp.Some? && w.arlonApp.value.deleting then w.(arlonApp := None) else w
  }

  function WithStatus(w: World, status: Status): World {
    if w.cr.None? then w else w.(cr := Some(w.cr.value.(status := status)))
  }

  function WithFinalizer(w: World): World {
    if w.cr.None? then w else w.(cr := Some(w.cr.value.(finalizer := true)))
  }

  /** Removing the last finalizer of a resource being deleted removes it. */
  function WithoutFinalizer(w: World): World {
    if w.cr.None? then w
    else if w.cr.value.deleting then w.(cr := None)
    else w.(cr := Some(w.cr.value.(finalizer := false)))
  }

  function MarkDeleted(app: Option<App>): Option<App> {
    if app.None? then None else Some(app.value.(deleting := true))
  }

  /** The effect of the pending call when it is carried out, and whether the
      server accepts it. Reads have no effect. */
  function Effect(s: State): (World, bool) {
    var w := s.w;
    match s.pc
    case AddFinalizer(_) => (WithFinalizer(w), w.cr.Some?)
    case DeployPatch(cl) =>
      if cl.spec.override_.None? then (w, false)
      else (w.(git := w.git[WrittenKey(cl) := PatchDir(cl.spec.override_.value.patch, cl.spec.template)]), true)
    case CreateArlonApp(cl) =>
      if w.arlonApp.Some? then (w, false) else (w.(arlonApp := Some(ConstructArlonApp(cl))), true)
    case CreateClusterApp(cl) =>
      if w.clusterApp.Some? then (w, false) else (w.(clusterApp := Some(ConstructClusterApp(cl))), true)
    case UpdateClusterApp(cl, app) =>
      if w.clusterApp.None? then (w, false)
      else (w.(clusterApp := Some(w.clusterApp.value.(annotations := app.annotations))), true)
    case WriteStatus(cl) => (WithStatus(w, cl.status), w.cr.Some?)
    case DeleteOverride(cl, app) =>
      var key, how := RecordedKey(app, cl.name), Removal(w, app, cl.name);
      if key !in w.git || how.Refuses? then (w, false)
      else if how.Keeps? then (w, true)
      else (w.(git := w.git - {key}), true)
    case DeleteClusterApp(_) => (w.(clusterApp := MarkDeleted(w.clusterApp)), w.clusterApp.Some?)
    case DeleteArlonApp(_) => (w.(arlonApp := MarkDeleted(w.arlonApp)), w.arlonApp.Some?)
    case RemoveFinalizer(_) => (WithoutFinalizer(w), w.cr.Some?)
    case _ => (w, true)
  }

  // ------------------------------------------------------------ the controller

  /** UpdateState: set the state in memory, then write the status. */
  function Enter(cl: Cluster, state: string): Pc {
    WriteStatus(cl.(status := cl.status.(state := state)))
  }

  /** Reconcile up to its first remote call after connecting. */
  function Dispatch(cl: Cluster): Pc {
    if cl.deleting then FindClusterApp(cl)
    else if !cl.finalizer then AddFinalizer(cl)
    else if cl.status.innerClusterName == "" then ValidateTemplate(cl)
    else if cl.spec.override_.Some? && !cl.status.overrideSuccessful then DeployPatch(cl)
    else ReadArlonApp(cl)
  }

  function AfterSync(cl: Cluster): Pc {
    if cl.status.state != "created" then Enter(cl, "created") else Idle
  }

  /** Where the controller goes when the pending call returned; `ok` is what it
      was told, `w` the world it was answered from. */
  function Continue(pc: Pc, w: World, ok: bool): Pc {
    match pc
    case Idle => Idle
    case ReadCluster => if ok && w.cr.Some? then Connect(w.cr.value) else Idle
    case Connect(cl) => if ok then Dispatch(cl) else Enter(cl, "retrying")
    case AddFinalizer(_) => Idle
    case ValidateTemplate(cl) =>
      if ok then Enter(cl.(status := cl.status.(innerClusterName := w.templateName)), "template-validated")
      else Enter(cl, "retrying")
    case DeployPatch(cl) =>
      if ok then Enter(cl.(status := cl.status.(overrideSuccessful := true)), "override-created")
      else Enter(cl, "retrying")
    case ReadArlonApp(cl) =>
      if !ok then Enter(cl, "retrying")
      else if w.arlonApp.Some? then ReadClusterApp(cl) else CheckClusterApp(cl)
    case CheckClusterApp(cl) =>
      if !ok || w.clusterApp.Some? then Enter(cl, "retrying") else CreateArlonApp(cl)
    case CreateArlonApp(cl) => if ok then ReadClusterApp(cl) else Enter(cl, "retrying")
    case ReadClusterApp(cl) =>
      if !ok then Enter(cl, "retrying")
      else if w.clusterApp.None? then CreateClusterApp(cl)
      else if SyncedApp(cl, w.clusterApp.value).Some?
      then UpdateClusterApp(cl, SyncedApp(cl, w.clusterApp.value).value)
      else AfterSync(cl)
    case CreateClusterApp(cl) => Enter(cl, if ok then "created" else "retrying")
    case UpdateClusterApp(cl, _) => if ok then AfterSync(cl) else Enter(cl, "retrying")
    case WriteStatus(_) => Idle
    case FindClusterApp(cl) =>
      if !ok then Enter(cl, "delete-retrying")
      else if w.clusterApp.None? then FindArlonApp(cl)
      else if cl.spec.override_.Some? && cl.status.overrideSuccessful then DeleteOverride(cl, w.clusterApp.value)
      else if w.clusterApp.value.deleting then Idle
      else DeleteClusterApp(cl)
    case DeleteOverride(cl, _) =>
      if ok then Enter(cl.(status := cl.status.(overrideSuccessful := false)), "override-deleted")
      else Enter(cl, "error-deleting-override")
    case DeleteClusterApp(cl) => Enter(cl, if ok then "deleting-cluster-app" else "error-deleting-cluster-app")
    case FindArlonApp(cl) =>
      if !ok then Enter(cl, "delete-retrying")
      else if w.arlonApp.None? then RemoveFinalizer(cl)
      else if w.arlonApp.value.deleting then Idle
      else DeleteArlonApp(cl)
    case DeleteArlonApp(cl) => Enter(cl, if ok then "deleting-arlon-app" else "error-deleting-arlon-app")
    case RemoveFinalizer(_) => Idle
  }

  /** One API call: its effect unless it is lost, its answer unless it failed. */
  function DoCall(s: State, fault: Fault): State {
    var (after, accepted) := Effect(s);
    State(if fault == Lost then s.w else after, Continue(s.pc, s.w, accepted && fault == Fine))
  }

  function Next(s: State, a: Action): State {
    match a
    case Begin => if s.pc.Idle? then s.(pc := ReadCluster) else s
    case Call(fault) => if s.pc.Idle? then s else DoCall(s, fault)
    case Env(step) => s.(w := EnvEffect(s.w, step))
    case Crash => s.(pc := Idle)
  }

  /** A run of the system: any interleaving of any actions. */
  function Run(s: State, actions: seq<Action>): State
    decreases |actions|
  {
    if actions == [] then s else Run(Next(s, actions[0]), actions[1..])
  }

  /** The resource as the user creates it, before the controller has seen it. */
  ghost predicate Initial(w: World) {
    && w.arlonApp.None? && w.clusterApp.None? && w.templateName != ""
    && w.cr.Some? && !w.cr.value.finalizer && !w.cr.value.deleting
    && w.cr.value.status == Status("", "", false)
  }

  /** How many calls a reconcile can still make. */
  function CallsLeft(pc: Pc): nat {
    match pc
    case Idle => 0
    case WriteStatus(_) => 1
    case AddFinalizer(_) => 1
    case RemoveFinalizer(_) => 1
    case ValidateTemplate(_) => 2
    case DeployPatch(_) => 2
    case CreateClusterApp(_) => 2
    case UpdateClusterApp(_, _) => 2
    case ReadClusterApp(_) => 3
    case CreateArlonApp(_) => 4
    case CheckClusterApp(_) => 5
    case ReadArlonApp(_) => 6
    case DeleteOverride(_, _) => 2
    case DeleteClusterApp(_) => 2
    case DeleteArlonApp(_) => 2
    case FindArlonApp(_) => 3
    case FindClusterApp(_) => 4
    case Connect(_) => 7
    case ReadCluster => 8
  }

  /** A failure-free reconcile, run to its end. */
  function Settle(s: State): State
    decreases CallsLeft(s.pc)
  {
    if s.pc.Idle? then s else Settle(DoCall(s, Fine))
  }

  function Reconcile(w: World): World {
    Settle(State(w, ReadCluster)).w
  }
}
