/** Gen1 clusters: deployment and update (pkg/cluster/create.go, update.go,
    util.go), and what no sequence of them can change. */
module ClusterUpdate {
  import opened Wrappers
  import opened ClusterSpecs
  import opened RootApps
  import opened GoPath

  /** One regeneration of a cluster's directory in git. */
  datatype Deployment = Deployment(clusterName: string, repoUrl: string, branch: string, mgmtPath: string)

  datatype World = World(apps: map<string, Application>, specs: map<string, ConfigMap>, deployed: seq<Deployment>)

  datatype UpdateError =
    | AlreadyDeployed
    | NoSuchApp
    | MissingSpecAnnotation
    | MissingProfileAnnotation
    | NoSuchProfile
    | NoSuchSpec
    | UnreadableSpec(error: SpecError)
    | TripleChanged
    | MalformedPath
    | UnexpectedClusterName
    | CallFailed

  function OrElse(name: string, recorded: string): string {
    if name == "" then recorded else name
  }

  // ------------------------------------------------------------ what a step may do

  /** The update of an existing root application that the code accepts: the
      specification exists and its triple is one the application is tagged
      with, the profile exists, and the path is this cluster's. */
  ghost predicate Allowed(w: World, profiles: set<string>, clusterName: string, specName: string, profileName: string) {
    && clusterName in w.apps
    && var app := w.apps[clusterName];
       var spec := OrElse(specName, app.clusterSpecName);
       var profile := OrElse(profileName, app.profileName);
       && spec != "" && profile != "" && profile in profiles && spec in w.specs
       && SubchartName(w.specs[spec]).Success?
       && TripleOf(FromConfigMap(w.specs[spec]).value) in Tagged(app)
       && DecomposePath(app.path).Success? && DecomposePath(app.path).value.1 == clusterName
  }

  function UpdateRequest(app: Application, clusterName: string, spec: string, cm: ConfigMap, profile: string,
                         url: string): Request {
    Request(clusterName, "", app.repoUrl, app.targetRevision, app.path, spec, Some(cm), profile, url, false)
  }

  /** Everything an update can do to the world: nothing, regenerate the
      directory, or also replace the application. */
  ghost predicate UpdateStep(w: World, w': World, profiles: set<string>, clusterName: string, specName: string,
                             profileName: string, url: string) {
    && w'.specs == w.specs
    && (w' == w ||
        (&& Allowed(w, profiles, clusterName, specName, profileName)
         && var app := w.apps[clusterName];
            var spec := OrElse(specName, app.clusterSpecName);
            && w'.deployed == w.deployed + [Deployment(clusterName, app.repoUrl, app.targetRevision,
                                                       MgmtPathFromBasePath(DecomposePath(app.path).value.0,
                                                                            clusterName))]
            && w'.apps.Keys == w.apps.Keys
            && (forall n | n in w.apps && n != clusterName :: w'.apps[n] == w.apps[n])
            && (w'.apps[clusterName] == app ||
                IsRootApp(w'.apps[clusterName],
                          UpdateRequest(app, clusterName, spec, w.specs[spec],
                                        OrElse(profileName, app.profileName), url)))))
  }

  /** Everything a gen1 deployment can do: the name must be free. */
  ghost predicate CreateStep(w: World, w': World, clusterName: string, base: string, req: Request) {
    && w'.specs == w.specs
    && (w' == w ||
        (&& clusterName !in w.apps
         && req.clusterName == clusterName && req.repoPath == MgmtPathFromBasePath(base, clusterName)
         && req.clusterSpecName != "" && req.clusterSpecName in w.specs
         && req.clusterSpecCm == Some(w.specs[req.clusterSpecName]) && Constructible(req)
         && w'.deployed == w.deployed + [Deployment(clusterName, req.repoUrl, req.repoBranch, req.repoPath)]
         && (w'.apps == w.apps ||
             (&& w'.apps.Keys == w.apps.Keys + {clusterName}
              && (forall n | n in w.apps :: w'.apps[n] == w.apps[n])
              && IsRootApp(w'.apps[clusterName], req)))))
  }

  /** Commands, and whatever anybody does to the specifications or by deleting
      clusters. */
  datatype Step =
    | UpdateCluster(profiles: set<string>, clusterName: string, specName: string, profileName: string, url: string)
    | CreateCluster(clusterName: string, base: string, req: Request)
    | ChangeSpecs
    | DeleteCluster(clusterName: string)

  ghost predicate Stepped(w: World, w': World, step: Step) {
    match step
    case UpdateCluster(profiles, name, spec, profile, url) => UpdateStep(w, w', profiles, name, spec, profile, url)
    case CreateCluster(name, base, req) => IsComponent(name) && CreateStep(w, w', name, base, req)
    case ChangeSpecs => w' == w.(specs := w'.specs)
    case DeleteCluster(name) => w' == w.(apps := w.apps - {name})
  }

  ghost predicate History(worlds: seq<World>, steps: seq<Step>) {
    && |worlds| == |steps| + 1
    && forall i | 0 <= i < |steps| :: Stepped(worlds[i], worlds[i + 1], steps[i])
  }

  // ------------------------------------------------------------ what they keep

  /** An application as deployed: one triple, and the management path of its
      own name under some base. */
  ghost predicate WellBuilt(name: string, app: Application) {
    && (exists t :: Tagged(app) == {t})
    && (exists base :: app.path == MgmtPathFromBasePath(base, name))
    && IsComponent(name)
  }

  ghost predicate AllWellBuilt(w: World) {
    forall n | n in w.apps :: WellBuilt(n, w.apps[n])
  }

  /** What a cluster may never change. */
  ghost predicate SameIdentity(a: Application, b: Application) {
    && Tagged(a) == Tagged(b)
    && a.repoUrl == b.repoUrl && a.targetRevision == b.targetRevision && a.path == b.path
  }

  lemma UpdateKeepsIdentity(w: World, w': World, profiles: set<string>, clusterName: string, specName: string,
                            profileName: string, url: string)
    requires AllWellBuilt(w) && UpdateStep(w, w', profiles, clusterName, specName, profileName, url)
    ensures AllWellBuilt(w') && w'.apps.Keys == w.apps.Keys
    ensures forall n | n in w.apps :: SameIdentity(w.apps[n], w'.apps[n])
  {
    hide Tagged, SubchartName, FromConfigMap, ExpectedParams, MgmtPathFromBasePath, DecomposePath;
    if w' != w && w'.apps[clusterName] != w.apps[clusterName] {
      var app := w.apps[clusterName];
      var spec := OrElse(specName, app.clusterSpecName);
      var req := UpdateRequest(app, clusterName, spec, w.specs[spec], OrElse(profileName, app.profileName), url);
      TagIdentifiesTriple(w'.apps[clusterName], req);
      assert WellBuilt(clusterName, app);
      var t :| Tagged(app) == {t};
      assert TripleOf(SpecOf(req)) == t;
      assert SameIdentity(app, w'.apps[clusterName]);
    }
    forall n | n in w'.apps ensures WellBuilt(n, w'.apps[n]) {
      assert WellBuilt(n, w.apps[n]);
    }
  }

  lemma CreateBuildsWell(w: World, w': World, clusterName: string, base: string, req: Request)
    requires AllWellBuilt(w) && IsComponent(clusterName) && CreateStep(w, w', clusterName, base, req)
    ensures AllWellBuilt(w') && w.apps.Keys <= w'.apps.Keys
    ensures forall n | n in w.apps :: w'.apps[n] == w.apps[n]
  {
    hide Tagged, SubchartName, FromConfigMap, ExpectedParams, MgmtPathFromBasePath, IsComponent;
    if w'.apps != w.apps {
      TagIdentifiesTriple(w'.apps[clusterName], req);
    }
    forall n | n in w'.apps ensures WellBuilt(n, w'.apps[n]) {
      if n in w.apps {
        assert WellBuilt(n, w.apps[n]);
      }
    }
  }

  lemma StepKeepsIdentity(w: World, w': World, step: Step)
    requires AllWellBuilt(w) && Stepped(w, w', step)
    ensures AllWellBuilt(w')
    ensures forall n | n in w.apps && n in w'.apps :: SameIdentity(w.apps[n], w'.apps[n])
  {
    hide WellBuilt, UpdateStep, CreateStep, Tagged, IsComponent;
    match step {
      case UpdateCluster(profiles, name, spec, profile, url) =>
        UpdateKeepsIdentity(w, w', profiles, name, spec, profile, url);
      case CreateCluster(name, base, req) => CreateBuildsWell(w, w', name, base, req);
      case ChangeSpecs =>
      case DeleteCluster(_) =>
    }
  }

  /** Over any history of deployments, updates, deletions and arbitrary
      specification changes, a cluster that is not deleted in between keeps its
      triple, repository, branch and path. */
  lemma {:induction false} Immutability(worlds: seq<World>, steps: seq<Step>, clusterName: string)
    requires History(worlds, steps) && AllWellBuilt(worlds[0])
    requires forall w | w in worlds :: clusterName in w.apps
    ensures AllWellBuilt(worlds[|steps|])
    ensures worlds[0] in worlds && worlds[|steps|] in worlds
         && SameIdentity(worlds[0].apps[clusterName], worlds[|steps|].apps[clusterName])
    decreases |steps|
  {
    if steps != [] {
      assert Stepped(worlds[0], worlds[1], steps[0]);
      assert worlds[0] in worlds && worlds[1] in worlds;
      StepKeepsIdentity(worlds[0], worlds[1], steps[0]);
      assert History(worlds[1..], steps[1..]) by {
        forall i | 0 <= i < |steps| - 1 ensures Stepped(worlds[1..][i], worlds[1..][i + 1], steps[1..][i]) {
          assert Stepped(worlds[i + 1], worlds[i + 2], steps[i + 1]);
        }
      }
      Immutability(worlds[1..], steps[1..], clusterName);
    }
  }

  // ------------------------------------------------------------ exactly when

  /** For a cluster deployed under `base`, an update whose specification and
      profile exist - given, or reused from the application - is accepted
      exactly when the triple is the same and the base does not clean to ".":
      under such a base the recorded path has too few components. */
  lemma AllowedExactly(w: World, profiles: set<string>, clusterName: string, base: string, t: Triple,
                       specName: string, profileName: string)
    requires clusterName in w.apps && IsComponent(clusterName)
    requires w.apps[clusterName].path == MgmtPathFromBasePath(base, clusterName)
    requires Tagged(w.apps[clusterName]) == {t}
    ensures var spec := OrElse(specName, w.apps[clusterName].clusterSpecName);
            var profile := OrElse(profileName, w.apps[clusterName].profileName);
            Allowed(w, profiles, clusterName, specName, profileName)
            <==> && spec != "" && spec in w.specs && profile != "" && profile in profiles
                 && SubchartName(w.specs[spec]).Success? && TripleOf(FromConfigMap(w.specs[spec]).value) == t
                 && Clean(base) != "."
  {
    DecomposableExactly(base, clusterName);
    hide Tagged, SubchartName, FromConfigMap, Clean, DecomposePath, MgmtPathFromBasePath, IsComponent, OrElse;
  }

  lemma DecomposableExactly(base: string, clusterName: string)
    requires IsComponent(clusterName)
    ensures var decomposed := DecomposePath(MgmtPathFromBasePath(base, clusterName));
            && (decomposed.Success? <==> Clean(base) != ".")
            && (decomposed.Success? ==> decomposed.value.1 == clusterName)
  {
    DecomposeRendered(base, clusterName);
    CleanRendered(base);
    if Components(base) == [] {
      assert Render(Rooted(base), []) == if Rooted(base) then "/" else ".";
    }
  }

  /** The documentation also forbids a changed region or pod CIDR block; the
      code looks at nothing but the triple. */
  lemma OnlyTripleIsChecked(w: World, profiles: set<string>, clusterName: string, specName: string, profileName: string,
                            cs: ClusterSpec, other: ClusterSpec)
    requires specName != "" && TripleOf(cs) == TripleOf(other)
    ensures Allowed(w.(specs := w.specs[specName := ToConfigMap(cs)]), profiles, clusterName, specName, profileName)
       <==> Allowed(w.(specs := w.specs[specName := ToConfigMap(other)]), profiles, clusterName, specName, profileName)
  {
    SpecRoundTrip(cs);
    SpecRoundTrip(other);
    hide FromConfigMap, ToConfigMap, Tagged, DecomposePath, Subchart;
  }

  /** An instance: a cluster built from one specification is moved, by an
      accepted update, to another that differs in region and pod CIDR block. */
  lemma RegionMayChange(app: Application, req: Request, cs: ClusterSpec)
    requires ValidTriple(TripleOf(cs)) && cs.region == "us-east-1" && cs.podCidrBlock == "10.0.0.0/16"
    requires req.clusterSpecCm == Some(ToConfigMap(cs)) && IsRootApp(app, req) && req.profileName != ""
    requires IsComponent(req.clusterName) && req.repoPath == MgmtPathFromBasePath("clusters", req.clusterName)
    ensures var moved := cs.(region := "us-west-2", podCidrBlock := "10.1.0.0/16");
            var w := World(map[req.clusterName := app], map["moved" := ToConfigMap(moved)], []);
            && FromConfigMap(req.clusterSpecCm.value) == Success(cs)
            && FromConfigMap(w.specs["moved"]) == Success(moved) && moved.region != cs.region
            && Allowed(w, {req.profileName}, req.clusterName, "moved", "")
  {
    var moved := cs.(region := "us-west-2", podCidrBlock := "10.1.0.0/16");
    var w := World(map[req.clusterName := app], map["moved" := ToConfigMap(moved)], []);
    SpecRoundTrip(cs);
    SpecRoundTrip(moved);
    TagIdentifiesTriple(app, req);
    ClustersIsClean();
    assert SubchartName(w.specs["moved"]).Success?;
    AllowedExactly(w, {req.profileName}, req.clusterName, "clusters", TripleOf(cs), "moved", "");
    hide FromConfigMap, ToConfigMap, Tagged, MgmtPathFromBasePath, Clean, SubchartName, ExpectedParams;
  }

  lemma ClustersIsClean()
    ensures Clean("clusters") != "."
  {
    Text.SplitWithout("clusters", SLASH);
    assert Resolve([], ["clusters"], false) == Resolve(["clusters"], [], false) == ["clusters"];
  }

  /** An accepted update regenerates the directory that the application reads,
      for every base: both paths lead to the same place below the root of the
      repository. They are spelled alike unless the base cleans to "/". */
  lemma UpdateRegeneratesInPlace(base: string, clusterName: string)
    requires IsComponent(clusterName)
    requires DecomposePath(MgmtPathFromBasePath(base, clusterName)).Success?
    ensures var path := MgmtPathFromBasePath(base, clusterName);
            var again := MgmtPathFromBasePath(DecomposePath(path).value.0, clusterName);
            && Components(again) == Components(path) == Components(base) + [clusterName, "mgmt"]
            && (again == path <==> Clean(base) != "/")
  {
    DecomposeRendered(base, clusterName);
    CleanRendered(base);
    MgmtPathRendered(base, clusterName);
    RenderSplits(Components(base) + [clusterName, "mgmt"], Rooted(base));
    if Components(base) != [] {
      FrontIsClean(Rooted(base), Components(base));
      CleaningKeepsPaths(base, clusterName);
    } else {
      MgmtPathRendered("", clusterName);
      RenderSplits(Components("") + [clusterName, "mgmt"], Rooted(""));
      assert Text.Join([""], SLASH) == "";
      assert Components("") == [] by {
        assert Resolve([], [""], false) == Resolve([], [], false);
      }
    }
  }

  /** What an update makes of an application: the repository it deploys stays,
      the profile, the specification and the address are the new ones, and so
      are all Helm parameters. */
  ghost predicate IsUpdateOf(app': Application, app: Application, clusterName: string, spec: string, cm: ConfigMap,
                             profile: string, url: string) {
    && app'.name == clusterName && app'.clusterSpecName == spec && app'.profileName == profile
    && app'.repoUrl == app.repoUrl && app'.targetRevision == app.targetRevision && app'.path == app.path
    && FromConfigMap(cm).Success?
    && forall p :: p in app'.helmParams <==> IsUpdatedParameter(p, clusterName, cm, url)
  }

  ghost predicate IsUpdatedParameter(p: HelmParameter, clusterName: string, cm: ConfigMap, url: string)
    requires FromConfigMap(cm).Success?
  {
    var cs := FromConfigMap(cm).value;
    || p == HelmParameter("global." + "clusterName", clusterName)
    || p == HelmParameter("global." + "clusterFullNameWithInnerCluster", clusterName)
    || p == HelmParameter("global." + "managementClusterUrl", url)
    || p == HelmParameter("global." + "kubeconfigSecretKeyName",
                          if cs.apiProvider == "capi" then "value" else "kubeconfig")
    || IsCopied(p, cm.data)
    || p == Switch(cs.apiProvider + "-" + cs.cloudProvider + "-" + cs.clusterType)
    || (cs.clusterAutoscalerEnabled && p == Switch(cs.apiProvider + "-cluster-autoscaler"))
  }

  lemma UpdatedParameterMeans(app: Application, clusterName: string, spec: string, cm: ConfigMap, profile: string,
                              url: string, p: HelmParameter)
    requires FromConfigMap(cm).Success?
    ensures IsParameter(p, UpdateRequest(app, clusterName, spec, cm, profile, url))
       <==> IsUpdatedParameter(p, clusterName, cm, url)
  {
    hide FromConfigMap, IsCopied, Switch;
  }

  lemma UpdatedMeans(app': Application, app: Application, clusterName: string, spec: string, cm: ConfigMap,
                     profile: string, url: string)
    requires IsRootApp(app', UpdateRequest(app, clusterName, spec, cm, profile, url)) && spec != ""
    ensures IsUpdateOf(app', app, clusterName, spec, cm, profile, url)
  {
    var req := UpdateRequest(app, clusterName, spec, cm, profile, url);
    RootAppMeans(app', req);
    assert FromConfigMap(cm).Success?;
    forall p ensures IsParameter(p, req) <==> IsUpdatedParameter(p, clusterName, cm, url) {
      UpdatedParameterMeans(app, clusterName, spec, cm, profile, url, p);
    }
    hide FromConfigMap, IsParameter, IsUpdatedParameter, IsRootApp;
  }

  // ------------------------------------------------------------ the commands

  class Gen1Clusters {
    var apps: map<string, Application>
    var specs: map<string, ConfigMap>
    var deployed: seq<Deployment>
    const profiles: set<string>
    const fates: nat -> Fault
    var calls: nat

    ghost function Now(): World
      reads this
    {
      World(apps, specs, deployed)
    }

    constructor (w: World, profiles: set<string>, fates: nat -> Fault)
      ensures Now() == w && this.profiles == profiles && this.fates == fates && calls == 0
    {
      apps, specs, deployed, this.profiles, this.fates, calls := w.apps, w.specs, w.deployed, profiles, fates, 0;
    }

    method Await() returns (fate: Fault)
      modifies this`calls
      ensures calls == old(calls) + 1 && fate == fates(old(calls))
    {
      fate := fates(calls);
      calls := calls + 1;
    }

    ghost predicate Disturbed(since: nat)
      reads this
    {
      exists k :: since <= k < calls && fates(k) != Fine
    }

    /** Looks for the tag among the parameters of the old application. */
    method HasTag(params: seq<HelmParameter>, tag: HelmParameter) returns (found: bool)
      ensures found <==> tag in params
    {
      found := false;
      for i := 0 to |params|
        invariant found <==> tag in params[..i]
      {
        assert params[..i + 1] == params[..i] + [params[i]];
        found := params[i].name == tag.name && params[i].value == tag.value;
        if found {
          assert params[i] in params;
          return;
        }
      }
      assert params[..|params|] == params;
    }

    /** DeployToGit, then the write of the application when asked for. */
    method Publish(clusterName: string, basePath: string, app: Application, inArgoCd: bool) returns (ok: bool)
      modifies this
      ensures specs == old(specs) && calls > old(calls)
      ensures var grown := old(deployed) + [Deployment(clusterName, app.repoUrl, app.targetRevision,
                                                       MgmtPathFromBasePath(basePath, clusterName))];
              && (deployed == grown || (deployed == old(deployed) && apps == old(apps) && !ok))
              && (apps == old(apps) || apps == old(apps)[app.name := app])
              && (ok ==> deployed == grown && apps == if inArgoCd then old(apps)[app.name := app] else old(apps))
      ensures !ok ==> Disturbed(old(calls))
    {
      ok := false;
      var fate := Await();
      if fate != Fine {
        // the repository credentials
        return;
      }
      fate := Await();
      if fate != Lost {
        var target := MgmtPathFromBasePath(basePath, clusterName);
        deployed := deployed + [Deployment(clusterName, app.repoUrl, app.targetRevision, target)];
      }
      if fate != Fine {
        return;
      }
      if inArgoCd {
        fate := Await();
        if fate != Lost {
          apps := apps[app.name := app];
        }
        if fate != Fine {
          return;
        }
      }
      ok := true;
    }

    /** The reads and checks of an update: the specification and profile names
        in force, and the base the path was made from. */
    method Admit(clusterName: string, specName: string, profileName: string)
      returns (result: Result<(string, string, string), UpdateError>)
      modifies this`calls
      ensures calls > old(calls)
      ensures result.Success? ==>
                && Allowed(Now(), profiles, clusterName, specName, profileName)
                && result.value.0 == OrElse(specName, apps[clusterName].clusterSpecName)
                && result.value.1 == OrElse(profileName, apps[clusterName].profileName)
                && result.value.2 == DecomposePath(apps[clusterName].path).value.0
      ensures result == Failure(CallFailed) ==> Disturbed(old(calls))
      ensures result.Failure? && result.error != CallFailed ==>
                !Allowed(Now(), profiles, clusterName, specName, profileName)
    {
      hide Tagged, SubchartName, FromConfigMap, DecomposePath, Subchart, Tag;
      var fate := Await();
      if fate != Fine {
        return Failure(CallFailed);
      }
      if clusterName !in apps {
        return Failure(NoSuchApp);
      }
      var oldApp := apps[clusterName];
      var spec, profile := specName, profileName;
      if spec == "" {
        spec := oldApp.clusterSpecName;
        if spec == "" {
          return Failure(MissingSpecAnnotation);
        }
      }
      if profile == "" {
        profile := oldApp.profileName;
        if profile == "" {
          return Failure(MissingProfileAnnotation);
        }
      }
      fate := Await();
      if fate != Fine {
        return Failure(CallFailed);
      }
      if profile !in profiles {
        return Failure(NoSuchProfile);
      }
      fate := Await();
      if fate != Fine {
        return Failure(CallFailed);
      }
      if spec !in specs {
        return Failure(NoSuchSpec);
      }
      var subchart := SubchartName(specs[spec]);
      if subchart.Failure? {
        return Failure(UnreadableSpec(subchart.error));
      }
      ReadableSpec(specs[spec]);
      var t := TripleOf(FromConfigMap(specs[spec]).value);
      TaggedMeans(oldApp, t);
      var found := HasTag(oldApp.helmParams, Tag(subchart.value));
      if !found {
        return Failure(TripleChanged);
      }
      var decomposed := DecomposePath(oldApp.path);
      if decomposed.Failure? {
        return Failure(MalformedPath);
      }
      if decomposed.value.1 != clusterName {
        return Failure(UnexpectedClusterName);
      }
      result := Success((spec, profile, decomposed.value.0));
    }

    method Update(clusterName: string, specName: string, profileName: string, updateInArgoCd: bool, url: string)
      returns (result: Result<Application, UpdateError>)
      modifies this
      ensures UpdateStep(old(Now()), Now(), profiles, clusterName, specName, profileName, url)
      ensures result.Success? ==>
                && old(Allowed(Now(), profiles, clusterName, specName, profileName))
                && var app := old(apps)[clusterName];
                && var spec := if specName != "" then specName else app.clusterSpecName;
                && var profile := if profileName != "" then profileName else app.profileName;
                && IsUpdateOf(result.value, app, clusterName, spec, old(specs)[spec], profile, url)
                && (if updateInArgoCd then clusterName in apps && apps[clusterName] == result.value
                    else apps == old(apps))
                && |deployed| == |old(deployed)| + 1
      // an error that is not a failed call is a refusal, and changes nothing
      ensures result == Failure(CallFailed) ==> Disturbed(old(calls))
      ensures result.Failure? && result.error != CallFailed ==>
                Now() == old(Now()) && !old(Allowed(Now(), profiles, clusterName, specName, profileName))
    {
      hide Tagged, SubchartName, MgmtPathFromBasePath, DecomposePath, FromConfigMap, ExpectedParams;
      var admitted := Admit(clusterName, specName, profileName);
      if admitted.Failure? {
        return Failure(admitted.error);
      }
      var (spec, profile, basePath) := admitted.value;
      var oldApp := apps[clusterName];
      var built := ConstructRootApp(UpdateRequest(oldApp, clusterName, spec, specs[spec], profile, url));
      var rootApp := built.value;
      // the repository reference was copied, so its check cannot fail
      assert rootApp.repoUrl == oldApp.repoUrl && rootApp.path == oldApp.path && rootApp.name == clusterName;
      var fate := Await();
      if fate != Fine {
        // the bundles of the profile
        return Failure(CallFailed);
      }
      UpdatedMeans(rootApp, oldApp, clusterName, spec, specs[spec], profile, url);
      hide IsUpdateOf;
      var ok := Publish(clusterName, basePath, rootApp, updateInArgoCd);
      result := if ok then Success(rootApp) else Failure(CallFailed);
    }

    /** cluster.Create for a gen1 cluster. */
    method Create(base: string, req: Request, createInArgoCd: bool)
      returns (result: Result<Application, UpdateError>, ghost made: Request)
      requires req.clusterSpecName != ""
      modifies this
      ensures CreateStep(old(Now()), Now(), req.clusterName, base, made)
      ensures result.Success? ==>
                && IsRootApp(result.value, made) && IsRootAppFor(result.value, made)
                && made == req.(clusterSpecCm := made.clusterSpecCm, repoPath := made.repoPath)
                && req.clusterSpecName in old(specs) && made.clusterSpecCm == Some(old(specs)[req.clusterSpecName])
                && made.repoPath == MgmtPathFromBasePath(base, req.clusterName)
                && req.clusterName !in old(apps) && |deployed| == |old(deployed)| + 1
                && apps == if createInArgoCd then old(apps)[req.clusterName := result.value] else old(apps)
      ensures result == Failure(CallFailed) ==> Disturbed(old(calls))
      // an error that is not a failed call is a refusal, and changes nothing
      ensures result.Failure? && result.error != CallFailed ==>
                && Now() == old(Now())
                && (|| req.clusterName in old(apps) || req.clusterSpecName !in old(specs)
                    || SubchartName(old(specs)[req.clusterSpecName]).Failure?)
      ensures req.clusterName in old(apps) ==> result.Failure? && Now() == old(Now())
    {
      hide SubchartName, MgmtPathFromBasePath, ExpectedParams, IsRootAppFor, FromConfigMap;
      made := req;
      var fate := Await();
      if fate != Fine {
        return Failure(CallFailed), made;
      }
      if req.clusterName in apps {
        return Failure(AlreadyDeployed), made;
      }
      fate := Await();
      if fate != Fine {
        return Failure(CallFailed), made;
      }
      if req.clusterSpecName !in specs {
        return Failure(NoSuchSpec), made;
      }
      var request := req.(clusterSpecCm := Some(specs[req.clusterSpecName]),
                          repoPath := MgmtPathFromBasePath(base, req.clusterName));
      var built := ConstructRootApp(request);
      if built.Failure? {
        return Failure(UnreadableSpec(built.error)), made;
      }
      fate := Await();
      if fate != Fine {
        return Failure(CallFailed), made;
      }
      made := request;
      var ok := Publish(req.clusterName, base, built.value, createInArgoCd);
      result := if ok then Success(built.value) else Failure(CallFailed);
    }
  }

  lemma ReadableSpec(cm: ConfigMap)
    requires SubchartName(cm).Success?
    ensures FromConfigMap(cm).Success? && ValidTriple(TripleOf(FromConfigMap(cm).value))
    ensures SubchartName(cm).value == Subchart(TripleOf(FromConfigMap(cm).value))
  {
  }
}
