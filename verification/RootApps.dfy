/** The root application of a cluster (pkg/cluster/root_app.go) and what its
    Helm parameters say about the specification it was built from. */
module RootApps {
  import opened Wrappers
  import opened ClusterSpecs

  datatype HelmParameter = HelmParameter(name: string, value: string)

  /** A difference ArgoCD is told to ignore, by group and kind. */
  datatype IgnoredDifference = IgnoredDifference(group: string, kind: string, pointer: string)

  datatype Application = Application(
    name: string, labels: map<string, string>, clusterSpecName: string, profileName: string,
    helmParams: seq<HelmParameter>, ignoreDifferences: seq<IgnoredDifference>,
    repoUrl: string, targetRevision: string, path: string)

  datatype Request = Request(
    clusterName: string, innerClusterName: string, repoUrl: string, repoBranch: string, repoPath: string,
    clusterSpecName: string, clusterSpecCm: Option<ConfigMap>, profileName: string,
    managementClusterUrl: string, gen2CAS: bool)

  const REPLICAS := IgnoredDifference("cluster.x-k8s.io", "MachineDeployment", "/spec/replicas")
  const CONTROL_PLANE_VERSION :=
    IgnoredDifference("controlplane.cluster.x-k8s.io", "AWSManagedControlPlane", "/spec/version")

  // ------------------------------------------------------------ what is built

  /** A gen2 application needs nothing; a gen1 one needs a readable
      specification with a valid triple. */
  predicate Constructible(req: Request) {
    req.clusterSpecCm.Some? ==> SubchartName(req.clusterSpecCm.value).Success?
  }

  function SpecOf(req: Request): ClusterSpec
    requires Constructible(req) && req.clusterSpecCm.Some?
  {
    FromConfigMap(req.clusterSpecCm.value).value
  }

  function ApiProviderOf(req: Request): string
    requires Constructible(req)
  {
    if req.clusterSpecCm.Some? then SpecOf(req).apiProvider else "capi"
  }

  function KubeconfigSecretKeyName(api: string): string {
    if api == "capi" then "value" else if api == "xplane" then "kubeconfig" else ""
  }

  function WithSuffix(name: string, suffix: string): string {
    if suffix == "" then name else name + "-" + suffix
  }

  /** The names below "global." in the parameters. */
  datatype GlobalKey =
    | FullNameWithInnerCluster
    | PlainClusterName
    | KubeconfigSecretKey
    | ManagementClusterUrl
    | InnerNameWithDashSuffix
    | FromSpec(key: Key)

  function KeyText(k: GlobalKey): string {
    match k
    case FullNameWithInnerCluster => "clusterFullNameWithInnerCluster"
    case PlainClusterName => "clusterName"
    case KubeconfigSecretKey => "kubeconfigSecretKeyName"
    case ManagementClusterUrl => "managementClusterUrl"
    case InnerNameWithDashSuffix => "innerClusterNameWithDashSuffix"
    case FromSpec(ApiProviderKey) => "apiProvider"
    case FromSpec(CloudProviderKey) => "cloudProvider"
    case FromSpec(ClusterTypeKey) => "type"
    case FromSpec(KubernetesVersionKey) => "kubernetesVersion"
    case FromSpec(NodeTypeKey) => "nodeType"
    case FromSpec(NodeCountKey) => "nodeCount"
    case FromSpec(MasterNodeCountKey) => "masterNodeCount"
    case FromSpec(RegionKey) => "region"
    case FromSpec(PodCidrBlockKey) => "podCidrBlock"
    case FromSpec(SshKeyNameKey) => "sshKeyName"
    case FromSpec(ClusterAutoscalerEnabledKey) => "clusterAutoscalerEnabled"
    case FromSpec(ClusterAutoscalerMinNodesKey) => "clusterAutoscalerMinNodes"
    case FromSpec(ClusterAutoscalerMaxNodesKey) => "clusterAutoscalerMaxNodes"
    case FromSpec(TagsKey) => "tags"
    case FromSpec(DescriptionKey) => "description"
  }

  function Global(k: GlobalKey): string {
    "global." + KeyText(k)
  }

  function Tag(subchart: string): HelmParameter {
    HelmParameter("tags." + subchart, "true")
  }

  function WantsAutoscaler(req: Request): bool
    requires Constructible(req)
  {
    if req.clusterSpecCm.Some? then SpecOf(req).clusterAutoscalerEnabled else req.gen2CAS
  }

  function CommonParams(req: Request): set<HelmParameter>
    requires Constructible(req)
  {
    {HelmParameter(Global(FullNameWithInnerCluster), WithSuffix(req.clusterName, req.innerClusterName)),
     HelmParameter(Global(PlainClusterName), req.clusterName),
     HelmParameter(Global(KubeconfigSecretKey), KubeconfigSecretKeyName(ApiProviderOf(req))),
     HelmParameter(Global(ManagementClusterUrl), req.managementClusterUrl)}
    + if req.innerClusterName == "" then {}
      else {HelmParameter(Global(InnerNameWithDashSuffix), req.innerClusterName + "-")}
  }

  /** The parameters copied from the specification: the valid keys that have a
      value, among the first n. */
  function SpecParams(data: Data, n: nat): set<HelmParameter>
    requires n <= |HELM_PARAM_KEYS|
  {
    set i | 0 <= i < n && Get(data, HELM_PARAM_KEYS[i]) != ""
    :: HelmParameter(Global(FromSpec(HELM_PARAM_KEYS[i])), Get(data, HELM_PARAM_KEYS[i]))
  }

  function TagParams(req: Request): set<HelmParameter>
    requires Constructible(req)
  {
    (if req.clusterSpecCm.Some? then {Tag(Subchart(TripleOf(SpecOf(req))))} else {})
    + if WantsAutoscaler(req) then {Tag(AutoscalerSubchart(ApiProviderOf(req)))} else {}
  }

  function ExpectedParams(req: Request): set<HelmParameter>
    requires Constructible(req)
  {
    CommonParams(req)
    + (if req.clusterSpecCm.Some? then SpecParams(req.clusterSpecCm.value.data, |HELM_PARAM_KEYS|) else {})
    + TagParams(req)
  }

  ghost predicate DistinctNames(params: seq<HelmParameter>) {
    forall i, j | 0 <= i < j < |params| :: params[i].name != params[j].name
  }

  /** An application built for a request: exactly the expected parameters, each
      name once, and the request's repository reference. A gen2 application
      gets no ignored differences, even with the autoscaler on. */
  ghost predicate IsRootApp(app: Application, req: Request) {
    && Constructible(req)
    && app.name == (if req.clusterSpecName == "" then req.clusterName + "-arlon" else req.clusterName)
    && app.labels == RootLabels(req)
    && app.clusterSpecName == req.clusterSpecName && app.profileName == req.profileName
    && Items(app.helmParams) == ExpectedParams(req) && DistinctNames(app.helmParams)
    && app.ignoreDifferences == (if req.clusterSpecCm.None? then []
                                 else (if WantsAutoscaler(req) then [REPLICAS] else []) + [CONTROL_PLANE_VERSION])
    && app.repoUrl == req.repoUrl && app.targetRevision == req.repoBranch && app.path == req.repoPath
  }

  function RootLabels(req: Request): map<string, string> {
    var labels := map["managed-by" := "arlon",
                      "arlon-type" := if req.clusterSpecName == "" then "arlon-app" else "cluster"];
    if req.clusterSpecCm.None? then labels["arlon-cluster" := req.clusterName] else labels
  }

  // ------------------------------------------------------------ building it

  ghost function Names(params: seq<HelmParameter>): set<string> {
    set p | p in params :: p.name
  }

  lemma NoParams()
    ensures Items<HelmParameter>([]) == {} && DistinctNames([]) && Names([]) == {}
  {
  }

  lemma AppendParam(params: seq<HelmParameter>, p: HelmParameter)
    ensures Items(params + [p]) == Items(params) + {p}
    ensures DistinctNames(params) && p.name !in Names(params) ==> DistinctNames(params + [p])
    ensures Names(params + [p]) == Names(params) + {p.name}
  {
    var longer := params + [p];
    assert longer[|params|] == p;
    forall q | q in params ensures q in longer {
      var i :| 0 <= i < |params| && params[i] == q;
      assert longer[i] == q;
    }
    if DistinctNames(params) && p.name !in Names(params) {
      forall i, j | 0 <= i < j < |longer| ensures longer[i].name != longer[j].name {
        if j == |params| {
          assert longer[i] == params[i] && params[i] in params;
          assert params[i].name in Names(params);
        }
      }
    }
  }

  /** enableClusterAutoscaler. */
  method EnableClusterAutoscaler(api: string, helmParams: seq<HelmParameter>, ignoreDiffs: seq<IgnoredDifference>)
    returns (params: seq<HelmParameter>, diffs: seq<IgnoredDifference>)
    ensures params == helmParams + [Tag(AutoscalerSubchart(api))] && diffs == ignoreDiffs + [REPLICAS]
  {
    params := helmParams + [Tag(AutoscalerSubchart(api))];
    diffs := ignoreDiffs + [REPLICAS];
  }

  predicate IsGlobal(name: string) {
    name != "" && name[0] == 'g'
  }

  /** Enough of each text to tell them apart. */
  function Mark(k: GlobalKey): (nat, char) {
    match k
    case FullNameWithInnerCluster => (31, 'c')
    case PlainClusterName => (11, 'c')
    case KubeconfigSecretKey => (23, 'k')
    case ManagementClusterUrl => (20, 'm')
    case InnerNameWithDashSuffix => (30, 'i')
    case FromSpec(ApiProviderKey) => (11, 'a')
    case FromSpec(CloudProviderKey) => (13, 'c')
    case FromSpec(ClusterTypeKey) => (4, 'y')
    case FromSpec(KubernetesVersionKey) => (17, 'k')
    case FromSpec(NodeTypeKey) => (8, 'n')
    case FromSpec(NodeCountKey) => (9, 'n')
    case FromSpec(MasterNodeCountKey) => (15, 'm')
    case FromSpec(RegionKey) => (6, 'r')
    case FromSpec(PodCidrBlockKey) => (12, 'p')
    case FromSpec(SshKeyNameKey) => (10, 's')
    case FromSpec(ClusterAutoscalerEnabledKey) => (24, 'c')
    case FromSpec(ClusterAutoscalerMinNodesKey) => (25, 'i')
    case FromSpec(ClusterAutoscalerMaxNodesKey) => (25, 'a')
    case FromSpec(TagsKey) => (4, 'a')
    case FromSpec(DescriptionKey) => (11, 'd')
  }

  function Position(size: nat): nat {
    if size == 4 then 1 else if size == 25 then 18 else 0
  }

  lemma MarkOf(k: GlobalKey)
    ensures |KeyText(k)| == Mark(k).0 && Position(Mark(k).0) < |KeyText(k)|
    ensures KeyText(k)[Position(Mark(k).0)] == Mark(k).1
  {
  }

  lemma MarksApart(a: GlobalKey, b: GlobalKey)
    ensures Mark(a) == Mark(b) ==> a == b
  {
  }

  lemma GlobalIsInjective(a: GlobalKey, b: GlobalKey)
    ensures Global(a) == Global(b) <==> a == b
    ensures IsGlobal(Global(a))
  {
    MarkOf(a);
    MarkOf(b);
    MarksApart(a, b);
    hide KeyText, Mark, Position;
    assert Global(a)[7..] == KeyText(a) && Global(b)[7..] == KeyText(b);
  }

  lemma GlobalsApart()
    ensures forall a, b :: Global(a) == Global(b) <==> a == b
    ensures forall a :: IsGlobal(Global(a))
  {
    forall a, b ensures IsGlobal(Global(a)) && (Global(a) == Global(b) <==> a == b) {
      GlobalIsInjective(a, b);
    }
    forall a ensures IsGlobal(Global(a)) {
      GlobalIsInjective(a, a);
    }
  }

  /** The names the parameters have before the i-th key of the loop. */
  ghost function GlobalNames(n: nat): set<string>
    requires n <= |HELM_PARAM_KEYS|
  {
    {Global(FullNameWithInnerCluster), Global(PlainClusterName), Global(KubeconfigSecretKey),
     Global(ManagementClusterUrl), Global(InnerNameWithDashSuffix)}
    + set i | 0 <= i < n :: Global(FromSpec(HELM_PARAM_KEYS[i]))
  }

  /** The parameters every root application has. */
  method AddCommonParams(req: Request, params: seq<HelmParameter>) returns (helmParams: seq<HelmParameter>)
    requires Constructible(req)
    requires DistinctNames(params) && forall n | n in Names(params) :: !IsGlobal(n)
    ensures Items(helmParams) == Items(params) + CommonParams(req)
    ensures DistinctNames(helmParams) && Names(helmParams) <= Names(params) + GlobalNames(0)
  {
    GlobalsApart();
    hide Global, IsGlobal, KubeconfigSecretKeyName, WithSuffix, FromConfigMap, SubchartName, ApiProviderOf,
         DistinctNames, Items, Names;
    ghost var names := Names(params);
    var p := HelmParameter(Global(FullNameWithInnerCluster), WithSuffix(req.clusterName, req.innerClusterName));
    AppendParam(params, p);
    helmParams := params + [p];
    var q := HelmParameter(Global(PlainClusterName), req.clusterName);
    AppendParam(helmParams, q);
    helmParams := helmParams + [q];
    var r := HelmParameter(Global(KubeconfigSecretKey), KubeconfigSecretKeyName(ApiProviderOf(req)));
    AppendParam(helmParams, r);
    helmParams := helmParams + [r];
    var s := HelmParameter(Global(ManagementClusterUrl), req.managementClusterUrl);
    AppendParam(helmParams, s);
    helmParams := helmParams + [s];
    assert Items(helmParams) == Items(params) + {p, q, r, s};
    assert Names(helmParams) == names + {p.name, q.name, r.name, s.name};
    if req.innerClusterName != "" {
      var t := HelmParameter(Global(InnerNameWithDashSuffix), req.innerClusterName + "-");
      AppendParam(helmParams, t);
      helmParams := helmParams + [t];
    }
  }

  /** The loop over the valid keys. */
  method AddSpecParams(data: Data, params: seq<HelmParameter>) returns (helmParams: seq<HelmParameter>)
    requires DistinctNames(params) && Names(params) <= GlobalNames(0)
    ensures Items(helmParams) == Items(params) + SpecParams(data, |HELM_PARAM_KEYS|)
    ensures DistinctNames(helmParams) && forall n | n in Names(helmParams) :: IsGlobal(n)
  {
    helmParams := params;
    for i := 0 to |HELM_PARAM_KEYS|
      invariant Items(helmParams) == Items(params) + SpecParams(data, i)
      invariant DistinctNames(helmParams) && Names(helmParams) <= GlobalNames(i)
    {
      var key := HELM_PARAM_KEYS[i];
      var val := Get(data, key);
      NextKeyIsFresh(i);
      SpecParamsStep(data, i);
      if val != "" {
        var p := HelmParameter(Global(FromSpec(key)), val);
        AppendParam(helmParams, p);
        helmParams := helmParams + [p];
      }
    }
    GlobalNamesAreGlobal();
  }

  lemma NextKeyIsFresh(i: nat)
    requires i < |HELM_PARAM_KEYS|
    ensures Global(FromSpec(HELM_PARAM_KEYS[i])) !in GlobalNames(i)
    ensures GlobalNames(i + 1) == GlobalNames(i) + {Global(FromSpec(HELM_PARAM_KEYS[i]))}
  {
    GlobalsApart();
    hide Global;
    var key := HELM_PARAM_KEYS[i];
    forall j | 0 <= j < i ensures Global(FromSpec(HELM_PARAM_KEYS[j])) != Global(FromSpec(key)) {
      assert HELM_PARAM_KEYS[j] != HELM_PARAM_KEYS[i];
    }
  }

  lemma SpecParamsStep(data: Data, i: nat)
    requires i < |HELM_PARAM_KEYS|
    ensures var key := HELM_PARAM_KEYS[i];
            SpecParams(data, i + 1) == SpecParams(data, i)
            + if Get(data, key) == "" then {} else {HelmParameter(Global(FromSpec(key)), Get(data, key))}
  {
    hide Global, Get;
  }

  lemma GlobalNamesAreGlobal()
    ensures forall n | n in GlobalNames(|HELM_PARAM_KEYS|) :: IsGlobal(n)
  {
    GlobalsApart();
    hide Global, IsGlobal;
  }

  method ConstructRootApp(req: Request) returns (result: Result<Application, SpecError>)
    ensures result.Success? <==> Constructible(req)
    ensures result.Success? ==> IsRootApp(result.value, req) && IsRootAppFor(result.value, req)
    ensures result.Failure? ==> SubchartName(req.clusterSpecCm.value) == Failure(result.error)
  {
    hide FromConfigMap, Global, IsGlobal, Subchart, AutoscalerSubchart, CommonParams, SpecParams, DistinctNames,
         Items, Names, Tag;
    var appName, arlonType := req.clusterName, "cluster";
    if req.clusterSpecName == "" {
      appName := appName + "-arlon";
      arlonType := "arlon-app";
    }
    var labels := map["managed-by" := "arlon", "arlon-type" := arlonType];
    var helmParams, ignoreDiffs, ignored := [], [], [];
    NoParams();
    if req.clusterSpecCm.Some? {
      var cs := FromConfigMap(req.clusterSpecCm.value);
      if cs.Failure? {
        return Failure(cs.error);
      }
      var subchart := SubchartNameFromClusterSpec(cs.value);
      if subchart.Failure? {
        return Failure(subchart.error);
      }
      helmParams := AddCommonParams(req, helmParams);
      helmParams := AddSpecParams(req.clusterSpecCm.value.data, helmParams);
      helmParams, ignoreDiffs := AddTags(cs.value, helmParams);
      ignoreDiffs := ignoreDiffs + [CONTROL_PLANE_VERSION];
      ignored := ignoreDiffs;
    } else {
      labels := labels["arlon-cluster" := req.clusterName];
      if req.gen2CAS {
        AppendParam(helmParams, Tag(AutoscalerSubchart("capi")));
        TagIsInjective(AutoscalerSubchart("capi"), AutoscalerSubchart("capi"));
        helmParams, ignoreDiffs := EnableClusterAutoscaler("capi", helmParams, ignoreDiffs);
      }
      helmParams := AddCommonParams(req, helmParams);
    }
    var app := Application(appName, labels, req.clusterSpecName, req.profileName, helmParams, ignored,
                           req.repoUrl, req.repoBranch, req.repoPath);
    assert IsRootApp(app, req);
    RootAppMeans(app, req);
    hide IsRootAppFor;
    result := Success(app);
  }

  /** The tags of a gen1 application. */
  method AddTags(cs: ClusterSpec, params: seq<HelmParameter>)
    returns (helmParams: seq<HelmParameter>, ignoreDiffs: seq<IgnoredDifference>)
    requires ValidTriple(TripleOf(cs))
    requires DistinctNames(params) && forall n | n in Names(params) :: IsGlobal(n)
    ensures Items(helmParams) == Items(params) + {Tag(Subchart(TripleOf(cs)))}
         + if cs.clusterAutoscalerEnabled then {Tag(AutoscalerSubchart(cs.apiProvider))} else {}
    ensures DistinctNames(helmParams)
    ensures ignoreDiffs == if cs.clusterAutoscalerEnabled then [REPLICAS] else []
  {
    var t := TripleOf(cs);
    var p := Tag(Subchart(t));
    AppendParam(params, p);
    helmParams, ignoreDiffs := params + [p], [];
    if cs.clusterAutoscalerEnabled {
      AutoscalerIsNoSubchart(t, cs.apiProvider);
      TagIsInjective(Subchart(t), AutoscalerSubchart(cs.apiProvider));
      AppendParam(helmParams, Tag(AutoscalerSubchart(cs.apiProvider)));
      helmParams, ignoreDiffs := EnableClusterAutoscaler(cs.apiProvider, helmParams, ignoreDiffs);
    }
  }

  lemma TagIsInjective(a: string, b: string)
    ensures Tag(a) == Tag(b) <==> a == b
    ensures Tag(a).name == Tag(b).name <==> a == b
    ensures !IsGlobal(Tag(a).name)
  {
    assert Tag(a).name[5..] == a && Tag(b).name[5..] == b;
  }

  // ------------------------------------------------------------ in plain terms

  /** A parameter copied from the specification: the value of this key under
      this name, unless it is empty. */
  predicate Copies(p: HelmParameter, data: Data, name: string, key: Key) {
    p.name == "global." + name && p.value == Get(data, key) && p.value != ""
  }

  predicate IsCopied(p: HelmParameter, data: Data) {
    || Copies(p, data, "region", RegionKey) || Copies(p, data, "sshKeyName", SshKeyNameKey)
    || Copies(p, data, "kubernetesVersion", KubernetesVersionKey) || Copies(p, data, "podCidrBlock", PodCidrBlockKey)
    || Copies(p, data, "nodeCount", NodeCountKey) || Copies(p, data, "masterNodeCount", MasterNodeCountKey)
    || Copies(p, data, "nodeType", NodeTypeKey)
    || Copies(p, data, "clusterAutoscalerEnabled", ClusterAutoscalerEnabledKey)
    || Copies(p, data, "clusterAutoscalerMinNodes", ClusterAutoscalerMinNodesKey)
    || Copies(p, data, "clusterAutoscalerMaxNodes", ClusterAutoscalerMaxNodesKey)
  }

  predicate IsCommon(p: HelmParameter, req: Request, api: string) {
    || (p.name == "global." + "clusterName" && p.value == req.clusterName)
    || (p.name == "global." + "managementClusterUrl" && p.value == req.managementClusterUrl)
    || (p.name == "global." + "kubeconfigSecretKeyName"
        && p.value == if api == "capi" then "value" else "kubeconfig")
    || (p.name == "global." + "clusterFullNameWithInnerCluster"
        && p.value == if req.innerClusterName == "" then req.clusterName
                      else req.clusterName + "-" + req.innerClusterName)
    || (req.innerClusterName != "" && p.name == "global." + "innerClusterNameWithDashSuffix"
        && p.value == req.innerClusterName + "-")
  }

  lemma CommonMeans(req: Request, p: HelmParameter)
    requires Constructible(req)
    ensures p in CommonParams(req) <==> IsCommon(p, req, ApiProviderOf(req))
    ensures ApiProviderOf(req) == "capi" || ApiProviderOf(req) == "xplane"
  {
    if req.clusterSpecCm.Some? {
      ValidTriplesAre(TripleOf(SpecOf(req)));
    }
    hide FromConfigMap;
  }

  lemma CopiedMeans(data: Data, p: HelmParameter)
    ensures p in SpecParams(data, |HELM_PARAM_KEYS|) <==> IsCopied(p, data)
  {
    hide Get;
    if IsCopied(p, data) {
      var i := CopiedIndex(data, p);
      assert p == HelmParameter(Global(FromSpec(HELM_PARAM_KEYS[i])), Get(data, HELM_PARAM_KEYS[i]));
    }
  }

  /** Which key a copied parameter comes from. */
  ghost function CopiedIndex(data: Data, p: HelmParameter): (i: nat)
    requires IsCopied(p, data)
    ensures i < |HELM_PARAM_KEYS| && Get(data, HELM_PARAM_KEYS[i]) != ""
    ensures p == HelmParameter(Global(FromSpec(HELM_PARAM_KEYS[i])), Get(data, HELM_PARAM_KEYS[i]))
  {
    if Copies(p, data, "region", RegionKey) then 0
    else if Copies(p, data, "sshKeyName", SshKeyNameKey) then 1
    else if Copies(p, data, "kubernetesVersion", KubernetesVersionKey) then 2
    else if Copies(p, data, "podCidrBlock", PodCidrBlockKey) then 3
    else if Copies(p, data, "nodeCount", NodeCountKey) then 4
    else if Copies(p, data, "masterNodeCount", MasterNodeCountKey) then 5
    else if Copies(p, data, "nodeType", NodeTypeKey) then 6
    else if Copies(p, data, "clusterAutoscalerEnabled", ClusterAutoscalerEnabledKey) then 7
    else if Copies(p, data, "clusterAutoscalerMinNodes", ClusterAutoscalerMinNodesKey) then 8
    else 9
  }

  /** All parameters of a root application. */
  ghost predicate IsParameter(p: HelmParameter, req: Request) {
    match req.clusterSpecCm
    case None => IsCommon(p, req, "capi") || (req.gen2CAS && p == Switch("capi-cluster-autoscaler"))
    case Some(cm) =>
      && FromConfigMap(cm).Success?
      && var cs := FromConfigMap(cm).value;
      || IsCommon(p, req, cs.apiProvider) || IsCopied(p, cm.data)
      || p == Switch(cs.apiProvider + "-" + cs.cloudProvider + "-" + cs.clusterType)
      || (cs.clusterAutoscalerEnabled && p == Switch(cs.apiProvider + "-cluster-autoscaler"))
  }

  function Switch(subchart: string): HelmParameter {
    HelmParameter("tags." + subchart, "true")
  }

  /** Everything about a root application: its names and labels, the repository
      it deploys, which differences ArgoCD ignores, and exactly which Helm
      parameters it has, each name once. */
  ghost predicate IsRootAppFor(app: Application, req: Request) {
    && app.name == (if req.clusterSpecName == "" then req.clusterName + "-arlon" else req.clusterName)
    && app.clusterSpecName == req.clusterSpecName && app.profileName == req.profileName
    && app.repoUrl == req.repoUrl && app.targetRevision == req.repoBranch && app.path == req.repoPath
    && "managed-by" in app.labels && app.labels["managed-by"] == "arlon"
    && "arlon-type" in app.labels
    && app.labels["arlon-type"] == (if req.clusterSpecName == "" then "arlon-app" else "cluster")
    && (forall i, j | 0 <= i < j < |app.helmParams| :: app.helmParams[i].name != app.helmParams[j].name)
    && (forall p :: p in app.helmParams <==> IsParameter(p, req))
    && (req.clusterSpecCm.None? ==>
          && app.ignoreDifferences == []
          && "arlon-cluster" in app.labels && app.labels["arlon-cluster"] == req.clusterName)
    && (req.clusterSpecCm.Some? ==>
          && "arlon-cluster" !in app.labels
          && IgnoredDifference("controlplane.cluster.x-k8s.io", "AWSManagedControlPlane", "/spec/version")
             in app.ignoreDifferences)
    && (req.clusterSpecCm.Some? && FromConfigMap(req.clusterSpecCm.value).Success? ==>
          (FromConfigMap(req.clusterSpecCm.value).value.clusterAutoscalerEnabled <==>
             IgnoredDifference("cluster.x-k8s.io", "MachineDeployment", "/spec/replicas") in app.ignoreDifferences))
  }

  lemma Gen2ParametersMean(req: Request, p: HelmParameter)
    requires Constructible(req) && req.clusterSpecCm.None?
    ensures p in ExpectedParams(req) <==> IsParameter(p, req)
  {
    CommonMeans(req, p);
    AutoscalerSubchartMeans("capi");
    assert "capi" + "-cluster-autoscaler" == "capi-cluster-autoscaler";
    hide FromConfigMap, CommonParams, SpecParams, IsCommon, IsCopied, AutoscalerSubchart;
  }

  lemma Gen1ParametersMean(req: Request, p: HelmParameter)
    requires Constructible(req) && req.clusterSpecCm.Some?
    ensures p in ExpectedParams(req) <==> IsParameter(p, req)
  {
    CommonMeans(req, p);
    AutoscalerSubchartMeans(ApiProviderOf(req));
    CopiedMeans(req.clusterSpecCm.value.data, p);
    var cs := SpecOf(req);
    assert Subchart(TripleOf(cs)) == cs.apiProvider + "-" + cs.cloudProvider + "-" + cs.clusterType;
    hide FromConfigMap, CommonParams, SpecParams, IsCommon, IsCopied, AutoscalerSubchart, Subchart, ValidTriple;
  }

  lemma AutoscalerSubchartMeans(api: string)
    ensures AutoscalerSubchart(api) == api + "-cluster-autoscaler"
  {
    assert "-" + "cluster" + "-" + "autoscaler" == "-cluster-autoscaler";
    assert AutoscalerSubchart(api) == api + ("-" + "cluster" + "-" + "autoscaler");
  }

  lemma RootAppMeans(app: Application, req: Request)
    requires IsRootApp(app, req)
    ensures IsRootAppFor(app, req)
  {
    hide FromConfigMap, ExpectedParams, IsParameter, SubchartName;
    forall p ensures p in app.helmParams <==> IsParameter(p, req) {
      if req.clusterSpecCm.Some? {
        Gen1ParametersMean(req, p);
      } else {
        Gen2ParametersMean(req, p);
      }
      assert p in app.helmParams <==> p in Items(app.helmParams);
    }
    hide Items;
  }

  // ------------------------------------------------------------ reading it back

  const CLOUDS := {"aws", "gcp", "azure"}
  const KINDS := {"kubeadm", "eks", "gke", "aks"}

  /** The triples an application is tagged with: those whose subchart it turns on. */
  ghost function Tagged(app: Application): set<Triple> {
    set api, cloud, kind |
      api in API_PROVIDERS && cloud in CLOUDS && kind in KINDS
      && ValidTriple(Triple(api, cloud, kind)) && Tag(Subchart(Triple(api, cloud, kind))) in app.helmParams
    :: Triple(api, cloud, kind)
  }

  lemma TaggedMeans(app: Application, t: Triple)
    ensures t in Tagged(app) <==> ValidTriple(t) && Tag(Subchart(t)) in app.helmParams
  {
    hide Subchart, Tag;
    if ValidTriple(t) {
      assert t == Triple(t.api, t.cloud, t.kind) && t.cloud in CLOUDS && t.kind in KINDS;
    }
  }

  lemma OwnTagOnly(app: Application, req: Request, t: Triple)
    requires IsRootApp(app, req) && req.clusterSpecCm.Some?
    ensures t in Tagged(app) <==> t == TripleOf(SpecOf(req))
  {
    assert ValidTriple(TripleOf(SpecOf(req)));
    TaggedMeans(app, t);
    hide FromConfigMap, SubchartName, ExpectedParams, Tagged, Tag, Subchart;
    if ValidTriple(t) {
      TagAmongParams(req, t);
      assert Tag(Subchart(t)) in Items(app.helmParams) <==> Tag(Subchart(t)) in app.helmParams;
    }
  }

  /** Nothing but the triple's own tag passes the subchart check: not the other
      triples' tags, not the autoscaler's, and no copied parameter. */
  lemma TagIdentifiesTriple(app: Application, req: Request)
    requires IsRootApp(app, req) && req.clusterSpecCm.Some?
    ensures Tagged(app) == {TripleOf(SpecOf(req))}
  {
    forall t ensures t in Tagged(app) <==> t == TripleOf(SpecOf(req)) {
      OwnTagOnly(app, req, t);
    }
    hide *;
  }

  lemma CommonAreGlobal(req: Request)
    requires Constructible(req)
    ensures forall p | p in CommonParams(req) :: IsGlobal(p.name)
  {
    GlobalsApart();
    hide Global, IsGlobal, FromConfigMap, KubeconfigSecretKeyName, WithSuffix;
  }

  lemma SpecAreGlobal(data: Data)
    ensures forall p | p in SpecParams(data, |HELM_PARAM_KEYS|) :: IsGlobal(p.name)
  {
    GlobalsApart();
    hide Global, IsGlobal;
  }

  lemma TagAmongParams(req: Request, t: Triple)
    requires Constructible(req) && req.clusterSpecCm.Some? && ValidTriple(t)
    ensures Tag(Subchart(t)) in ExpectedParams(req) <==> t == TripleOf(SpecOf(req))
  {
    var own := TripleOf(SpecOf(req));
    ValidIsDashFree(t);
    ValidIsDashFree(own);
    SubchartIsInjective(t, own);
    AutoscalerIsNoSubchart(t, own.api);
    TagIsInjective(Subchart(t), Subchart(own));
    TagIsInjective(Subchart(t), AutoscalerSubchart(own.api));
    CommonAreGlobal(req);
    SpecAreGlobal(req.clusterSpecCm.value.data);
    hide FromConfigMap, SubchartName, Global, IsGlobal, Tag, Subchart, AutoscalerSubchart, CommonParams, SpecParams;
  }
}
