/** Cluster specifications and the ConfigMaps that store them
    (pkg/clusterspec). */
module ClusterSpecs {
  import opened Wrappers
  import opened Decimal
  import Text

  /** The keys of a specification's ConfigMap. */
  datatype Key =
    | ApiProviderKey | CloudProviderKey | ClusterTypeKey | KubernetesVersionKey | NodeTypeKey
    | NodeCountKey | MasterNodeCountKey | RegionKey | PodCidrBlockKey | SshKeyNameKey
    | ClusterAutoscalerEnabledKey | ClusterAutoscalerMinNodesKey | ClusterAutoscalerMaxNodesKey
    | TagsKey | DescriptionKey

  type Data = map<Key, string>

  datatype ConfigMap = ConfigMap(name: string, data: Data)

  datatype ClusterSpec = ClusterSpec(
    name: string, apiProvider: string, cloudProvider: string, clusterType: string,
    kubernetesVersion: string, nodeType: string, nodeCount: Int64, masterNodeCount: Int64,
    region: string, podCidrBlock: string, sshKeyName: string, tags: string, description: string,
    clusterAutoscalerEnabled: bool, clusterAutoscalerMinNodes: Int64, clusterAutoscalerMaxNodes: Int64)

  datatype SpecError =
    | BadNodeCount
    | InvalidApiProvider
    | InvalidCloudProvider
    | InvalidClusterType
    | InvalidRegion
    | SpecNotFound
    | AlreadyExists
    | SpecCallFailed

  const HELM_PARAM_KEYS := [
    RegionKey, SshKeyNameKey, KubernetesVersionKey, PodCidrBlockKey, NodeCountKey, MasterNodeCountKey,
    NodeTypeKey, ClusterAutoscalerEnabledKey, ClusterAutoscalerMinNodesKey, ClusterAutoscalerMaxNodesKey]

  const DEFAULT_MASTER_NODE_COUNT: Int64 := 3
  const DEFAULT_MIN_NODES: Int64 := 1
  const DEFAULT_MAX_NODES: Int64 := 9

  /** Absent keys read as "". */
  function Get(data: Data, key: Key): string {
    if key in data then data[key] else ""
  }

  function ParseBool(s: string): Option<bool> {
    if s in ["1", "t", "T", "TRUE", "true", "True"] then Some(true)
    else if s in ["0", "f", "F", "FALSE", "false", "False"] then Some(false)
    else None
  }

  function FormatBool(b: bool): string {
    if b then "true" else "false"
  }

  function Or<T>(o: Option<T>, default: T): T {
    if o.Some? then o.value else default
  }

  /** Only an unreadable node count is an error; the other numbers and the flag
      fall back to a default. */
  function FromConfigMap(cm: ConfigMap): (r: Result<ClusterSpec, SpecError>)
    ensures r.Failure? ==> r.error == BadNodeCount
  {
    var d := cm.data;
    match Atoi(Get(d, NodeCountKey))
    case None => Failure(BadNodeCount)
    case Some(nodeCount) =>
      Success(ClusterSpec(
                cm.name, Get(d, ApiProviderKey), Get(d, CloudProviderKey), Get(d, ClusterTypeKey),
                Get(d, KubernetesVersionKey), Get(d, NodeTypeKey), nodeCount,
                Or(Atoi(Get(d, MasterNodeCountKey)), DEFAULT_MASTER_NODE_COUNT),
                Get(d, RegionKey), Get(d, PodCidrBlockKey), Get(d, SshKeyNameKey),
                Get(d, TagsKey), Get(d, DescriptionKey),
                Or(ParseBool(Get(d, ClusterAutoscalerEnabledKey)), false),
                Or(Atoi(Get(d, ClusterAutoscalerMinNodesKey)), DEFAULT_MIN_NODES),
                Or(Atoi(Get(d, ClusterAutoscalerMaxNodesKey)), DEFAULT_MAX_NODES)))
  }

  /** The text stored under each key. */
  function Field(cs: ClusterSpec, key: Key): string {
    match key
    case ApiProviderKey => cs.apiProvider
    case CloudProviderKey => cs.cloudProvider
    case ClusterTypeKey => cs.clusterType
    case KubernetesVersionKey => cs.kubernetesVersion
    case NodeTypeKey => cs.nodeType
    case NodeCountKey => Itoa(cs.nodeCount)
    case MasterNodeCountKey => Itoa(cs.masterNodeCount)
    case RegionKey => cs.region
    case PodCidrBlockKey => cs.podCidrBlock
    case SshKeyNameKey => cs.sshKeyName
    case ClusterAutoscalerEnabledKey => FormatBool(cs.clusterAutoscalerEnabled)
    case ClusterAutoscalerMinNodesKey => Itoa(cs.clusterAutoscalerMinNodes)
    case ClusterAutoscalerMaxNodesKey => Itoa(cs.clusterAutoscalerMaxNodes)
    case TagsKey => cs.tags
    case DescriptionKey => cs.description
  }

  const ALL_KEYS := {
    ApiProviderKey, CloudProviderKey, ClusterTypeKey, KubernetesVersionKey, NodeTypeKey,
    NodeCountKey, MasterNodeCountKey, RegionKey, PodCidrBlockKey, SshKeyNameKey,
    ClusterAutoscalerEnabledKey, ClusterAutoscalerMinNodesKey, ClusterAutoscalerMaxNodesKey,
    TagsKey, DescriptionKey}

  function ToConfigMap(cs: ClusterSpec): ConfigMap {
    ConfigMap(cs.name, map key | key in ALL_KEYS :: Field(cs, key))
  }

  lemma EveryKeyIsStored(cs: ClusterSpec, key: Key)
    ensures Get(ToConfigMap(cs).data, key) == Field(cs, key)
  {
    assert key in ALL_KEYS;
  }

  /** Where each value is stored. */
  lemma StoredUnder(cs: ClusterSpec)
    ensures var d := ToConfigMap(cs).data;
            && Get(d, ApiProviderKey) == cs.apiProvider && Get(d, CloudProviderKey) == cs.cloudProvider
            && Get(d, ClusterTypeKey) == cs.clusterType && Get(d, KubernetesVersionKey) == cs.kubernetesVersion
            && Get(d, NodeTypeKey) == cs.nodeType && Get(d, NodeCountKey) == Itoa(cs.nodeCount)
            && Get(d, MasterNodeCountKey) == Itoa(cs.masterNodeCount) && Get(d, RegionKey) == cs.region
            && Get(d, PodCidrBlockKey) == cs.podCidrBlock && Get(d, SshKeyNameKey) == cs.sshKeyName
            && Get(d, TagsKey) == cs.tags && Get(d, DescriptionKey) == cs.description
            && Get(d, ClusterAutoscalerEnabledKey) == (if cs.clusterAutoscalerEnabled then "true" else "false")
            && Get(d, ClusterAutoscalerMinNodesKey) == Itoa(cs.clusterAutoscalerMinNodes)
            && Get(d, ClusterAutoscalerMaxNodesKey) == Itoa(cs.clusterAutoscalerMaxNodes)
  {
    forall key ensures Get(ToConfigMap(cs).data, key) == Field(cs, key) {
      EveryKeyIsStored(cs, key);
    }
    hide Get, ToConfigMap, Itoa;
  }

  /** Reading a ConfigMap: only an unreadable node count is an error, and what
      else is missing or unreadable takes its default. */
  lemma ReadingMeans(cm: ConfigMap)
    ensures var d, r := cm.data, FromConfigMap(cm);
            && (r.Failure? <==> Atoi(Get(d, NodeCountKey)).None?)
            && (r.Success? ==>
                  && r.value.name == cm.name && Some(r.value.nodeCount) == Atoi(Get(d, NodeCountKey))
                  && r.value.masterNodeCount == DefaultTo(Atoi(Get(d, MasterNodeCountKey)), 3)
                  && r.value.clusterAutoscalerMinNodes == DefaultTo(Atoi(Get(d, ClusterAutoscalerMinNodesKey)), 1)
                  && r.value.clusterAutoscalerMaxNodes == DefaultTo(Atoi(Get(d, ClusterAutoscalerMaxNodesKey)), 9)
                  && (r.value.clusterAutoscalerEnabled <==>
                        Get(d, ClusterAutoscalerEnabledKey) in ["1", "t", "T", "TRUE", "true", "True"])
                  && r.value.apiProvider == Get(d, ApiProviderKey) && r.value.cloudProvider == Get(d, CloudProviderKey)
                  && r.value.clusterType == Get(d, ClusterTypeKey) && r.value.region == Get(d, RegionKey)
                  && r.value.kubernetesVersion == Get(d, KubernetesVersionKey)
                  && r.value.nodeType == Get(d, NodeTypeKey) && r.value.podCidrBlock == Get(d, PodCidrBlockKey)
                  && r.value.sshKeyName == Get(d, SshKeyNameKey)
                  && r.value.tags == Get(d, TagsKey) && r.value.description == Get(d, DescriptionKey))
  {
    hide Get, Atoi;
  }

  function DefaultTo(n: Option<Int64>, default: Int64): Int64 {
    match n
    case None => default
    case Some(v) => v
  }

  /** Only the values under the keys matter for reading. */
  lemma ReadsBack(cm: ConfigMap, cs: ClusterSpec)
    requires cm.name == cs.name && forall key :: Get(cm.data, key) == Field(cs, key)
    ensures FromConfigMap(cm) == Success(cs)
  {
    hide Get, Atoi, Itoa, ParseBool, FormatBool;
    AtoiOfItoa(cs.nodeCount);
    AtoiOfItoa(cs.masterNodeCount);
    AtoiOfItoa(cs.clusterAutoscalerMinNodes);
    AtoiOfItoa(cs.clusterAutoscalerMaxNodes);
    BoolRoundTrip(cs.clusterAutoscalerEnabled);
    var d := cm.data;
    assert Atoi(Get(d, NodeCountKey)) == Some(cs.nodeCount);
    assert Atoi(Get(d, MasterNodeCountKey)) == Some(cs.masterNodeCount);
    assert ParseBool(Get(d, ClusterAutoscalerEnabledKey)) == Some(cs.clusterAutoscalerEnabled);
    assert Atoi(Get(d, ClusterAutoscalerMinNodesKey)) == Some(cs.clusterAutoscalerMinNodes);
    assert Atoi(Get(d, ClusterAutoscalerMaxNodesKey)) == Some(cs.clusterAutoscalerMaxNodes);
    assert Get(d, ApiProviderKey) == cs.apiProvider && Get(d, CloudProviderKey) == cs.cloudProvider;
    assert Get(d, ClusterTypeKey) == cs.clusterType && Get(d, KubernetesVersionKey) == cs.kubernetesVersion;
    assert Get(d, NodeTypeKey) == cs.nodeType && Get(d, RegionKey) == cs.region;
    assert Get(d, PodCidrBlockKey) == cs.podCidrBlock && Get(d, SshKeyNameKey) == cs.sshKeyName;
    assert Get(d, TagsKey) == cs.tags && Get(d, DescriptionKey) == cs.description;
    hide Field;
  }

  /** A stored specification reads back unchanged, whatever its fields. */
  lemma SpecRoundTrip(cs: ClusterSpec)
    ensures FromConfigMap(ToConfigMap(cs)) == Success(cs) && ToConfigMap(cs).name == cs.name
  {
    hide FromConfigMap, Get, Field;
    forall key ensures Get(ToConfigMap(cs).data, key) == Field(cs, key) {
      EveryKeyIsStored(cs, key);
    }
    ReadsBack(ToConfigMap(cs), cs);
  }

  lemma BoolRoundTrip(b: bool)
    ensures ParseBool(FormatBool(b)) == Some(b)
  {
    assert "true" in ["1", "t", "T", "TRUE", "true", "True"];
    assert FormatBool(false) == "false";
  }

  // ------------------------------------------------------------ providers

  /** What a cluster may never change: API provider, cloud and cluster type. */
  datatype Triple = Triple(api: string, cloud: string, kind: string)

  const API_PROVIDERS := {"capi", "xplane"}
  const CLUSTER_TYPES := map[
    "aws" := {"kubeadm", "eks"},
    "gcp" := {"kubeadm", "gke"},
    "azure" := {"kubeadm", "aks"}]

  function TripleOf(cs: ClusterSpec): Triple {
    Triple(cs.apiProvider, cs.cloudProvider, cs.clusterType)
  }

  predicate ValidTriple(t: Triple) {
    t.api in API_PROVIDERS && t.cloud in CLUSTER_TYPES && t.kind in CLUSTER_TYPES[t.cloud]
  }

  function CheckTriple(t: Triple): Result<Triple, SpecError> {
    if t.api !in API_PROVIDERS then Failure(InvalidApiProvider)
    else if t.cloud !in CLUSTER_TYPES then Failure(InvalidCloudProvider)
    else if t.kind !in CLUSTER_TYPES[t.cloud] then Failure(InvalidClusterType)
    else Success(t)
  }

  /** The twelve supported combinations. */
  lemma ValidTriplesAre(t: Triple)
    ensures ValidTriple(t) <==>
              && (t.api == "capi" || t.api == "xplane")
              && (|| (t.cloud == "aws" && (t.kind == "kubeadm" || t.kind == "eks"))
                  || (t.cloud == "gcp" && (t.kind == "kubeadm" || t.kind == "gke"))
                  || (t.cloud == "azure" && (t.kind == "kubeadm" || t.kind == "aks")))
    ensures CheckTriple(t).Success? <==> ValidTriple(t)
    // the API provider is looked at first, then the cloud provider, then the type
    ensures t.api != "capi" && t.api != "xplane" <==> CheckTriple(t) == Failure(InvalidApiProvider)
    ensures (t.api == "capi" || t.api == "xplane") && t.cloud != "aws" && t.cloud != "gcp" && t.cloud != "azure" <==>
              CheckTriple(t) == Failure(InvalidCloudProvider)
  {
  }

  function Subchart(t: Triple): string {
    t.api + "-" + t.cloud + "-" + t.kind
  }

  function SubchartNameFromClusterSpec(cs: ClusterSpec): Result<string, SpecError> {
    match CheckTriple(TripleOf(cs))
    case Failure(e) => Failure(e)
    case Success(t) => Success(Subchart(t))
  }

  function SubchartName(cm: ConfigMap): Result<string, SpecError> {
    match FromConfigMap(cm)
    case Failure(e) => Failure(e)
    case Success(cs) => SubchartNameFromClusterSpec(cs)
  }

  function AutoscalerSubchart(api: string): string {
    api + "-" + "cluster" + "-" + "autoscaler"
  }

  ghost predicate DashFree(t: Triple) {
    '-' !in t.api && '-' !in t.cloud && '-' !in t.kind
  }

  lemma ValidIsDashFree(t: Triple)
    requires ValidTriple(t)
    ensures DashFree(t)
  {
    assert t.cloud == "aws" || t.cloud == "gcp" || t.cloud == "azure";
    assert t.kind == "kubeadm" || t.kind == "eks" || t.kind == "gke" || t.kind == "aks";
  }

  lemma SubchartIsJoin(t: Triple)
    ensures Subchart(t) == Text.Join([t.api, t.cloud, t.kind], '-')
  {
    assert [t.api, t.cloud, t.kind][1..] == [t.cloud, t.kind];
    assert Text.Join([t.cloud, t.kind], '-') == t.cloud + ['-'] + Text.Join([t.kind], '-') by {
      assert [t.cloud, t.kind][1..] == [t.kind];
    }
    assert Subchart(t) == t.api + ['-'] + (t.cloud + ['-'] + t.kind);
  }

  lemma SubchartSplits(t: Triple)
    requires DashFree(t)
    ensures Text.Split(Subchart(t), '-') == [t.api, t.cloud, t.kind]
  {
    SubchartIsJoin(t);
    Text.SplitOfJoin([t.api, t.cloud, t.kind], '-');
  }

  /** A subchart name determines the triple it was made from. */
  lemma SubchartIsInjective(t: Triple, u: Triple)
    requires DashFree(t) && DashFree(u)
    ensures Subchart(t) == Subchart(u) <==> t == u
  {
    SubchartSplits(t);
    SubchartSplits(u);
    assert [t.api, t.cloud, t.kind][0] == t.api && [t.api, t.cloud, t.kind][1] == t.cloud;
    assert [u.api, u.cloud, u.kind][0] == u.api && [u.api, u.cloud, u.kind][1] == u.cloud;
    assert [t.api, t.cloud, t.kind][2] == t.kind && [u.api, u.cloud, u.kind][2] == u.kind;
  }

  /** No triple's subchart is called like an autoscaler subchart. */
  lemma AutoscalerIsNoSubchart(t: Triple, api: string)
    requires ValidTriple(t) && api in API_PROVIDERS
    ensures Subchart(t) != AutoscalerSubchart(api)
  {
    var cas := Triple(api, "cluster", "autoscaler");
    ValidIsDashFree(t);
    assert api == "capi" || api == "xplane";
    assert DashFree(cas);
    SubchartIsInjective(t, cas);
    assert Subchart(cas) == AutoscalerSubchart(api);
  }

  // ------------------------------------------------------------ edits

  /** The arguments of an update: "", 0 and None keep the stored value. */
  datatype Edit = Edit(
    kubernetesVersion: string, nodeType: string, nodeCount: Int64, masterNodeCount: Int64,
    clusterAutoscalerEnabled: Option<bool>, clusterAutoscalerMinNodes: Int64, clusterAutoscalerMaxNodes: Int64,
    description: string, tags: string)

  const NO_EDIT := Edit("", "", 0, 0, None, 0, 0, "", "")

  function OrStored(replacement: string, stored: string): string {
    if replacement == "" then stored else replacement
  }

  function OrStoredNumber(replacement: Int64, stored: Int64): Int64 {
    if replacement == 0 then stored else replacement
  }

  function Edited(cs: ClusterSpec, e: Edit): ClusterSpec {
    cs.(kubernetesVersion := OrStored(e.kubernetesVersion, cs.kubernetesVersion),
        nodeType := OrStored(e.nodeType, cs.nodeType),
        nodeCount := OrStoredNumber(e.nodeCount, cs.nodeCount),
        masterNodeCount := OrStoredNumber(e.masterNodeCount, cs.masterNodeCount),
        clusterAutoscalerEnabled := Or(e.clusterAutoscalerEnabled, cs.clusterAutoscalerEnabled),
        clusterAutoscalerMinNodes := OrStoredNumber(e.clusterAutoscalerMinNodes, cs.clusterAutoscalerMinNodes),
        clusterAutoscalerMaxNodes := OrStoredNumber(e.clusterAutoscalerMaxNodes, cs.clusterAutoscalerMaxNodes),
        description := OrStored(e.description, cs.description),
        tags := OrStored(e.tags, cs.tags))
  }

  function Merge(first: Edit, second: Edit): Edit {
    Edit(OrStored(second.kubernetesVersion, first.kubernetesVersion), OrStored(second.nodeType, first.nodeType),
         OrStoredNumber(second.nodeCount, first.nodeCount),
         OrStoredNumber(second.masterNodeCount, first.masterNodeCount),
         if second.clusterAutoscalerEnabled.Some? then second.clusterAutoscalerEnabled
         else first.clusterAutoscalerEnabled,
         OrStoredNumber(second.clusterAutoscalerMinNodes, first.clusterAutoscalerMinNodes),
         OrStoredNumber(second.clusterAutoscalerMaxNodes, first.clusterAutoscalerMaxNodes),
         OrStored(second.description, first.description), OrStored(second.tags, first.tags))
  }

  /** Storing and rereading between edits, one edit after another. */
  function EditedAll(cm: ConfigMap, edits: seq<Edit>): ConfigMap
    decreases |edits|
  {
    if edits == [] then cm
    else
      match FromConfigMap(cm)
      case Failure(_) => cm
      case Success(cs) => EditedAll(ToConfigMap(Edited(cs, edits[0])), edits[1..])
  }

  function MergedAll(edits: seq<Edit>): Edit
    decreases |edits|
  {
    if edits == [] then NO_EDIT else Merge(edits[0], MergedAll(edits[1..]))
  }

  /** Any history of edits has the effect of one, and none of them touches the
      triple, the region, the pod CIDR block or the SSH key. */
  lemma {:induction false} EditsCollapse(cm: ConfigMap, edits: seq<Edit>)
    requires FromConfigMap(cm).Success?
    ensures var cs := FromConfigMap(cm).value;
            var last := FromConfigMap(EditedAll(cm, edits));
            && last == Success(Edited(cs, MergedAll(edits))) && IsEditOf(cs, MergedAll(edits), last.value)
            && TripleOf(last.value) == TripleOf(cs)
            && last.value.region == cs.region && last.value.podCidrBlock == cs.podCidrBlock
            && last.value.sshKeyName == cs.sshKeyName
            && SubchartName(EditedAll(cm, edits)) == SubchartName(cm)
    decreases |edits|
  {
    hide FromConfigMap, ToConfigMap;
    if edits != [] {
      var cs := FromConfigMap(cm).value;
      SpecRoundTrip(Edited(cs, edits[0]));
      EditsCollapse(ToConfigMap(Edited(cs, edits[0])), edits[1..]);
    }
  }

  /** What an edit does, field by field: each of the nine editable fields takes
      its own argument when that was given, and all others stay. */
  ghost predicate IsEditOf(cs: ClusterSpec, e: Edit, next: ClusterSpec) {
    && (if e.kubernetesVersion != "" then next.kubernetesVersion == e.kubernetesVersion
        else next.kubernetesVersion == cs.kubernetesVersion)
    && (if e.nodeType != "" then next.nodeType == e.nodeType else next.nodeType == cs.nodeType)
    && (if e.nodeCount != 0 then next.nodeCount == e.nodeCount else next.nodeCount == cs.nodeCount)
    && (if e.masterNodeCount != 0 then next.masterNodeCount == e.masterNodeCount
        else next.masterNodeCount == cs.masterNodeCount)
    && (if e.clusterAutoscalerEnabled.Some? then next.clusterAutoscalerEnabled == e.clusterAutoscalerEnabled.value
        else next.clusterAutoscalerEnabled == cs.clusterAutoscalerEnabled)
    && (if e.clusterAutoscalerMinNodes != 0 then next.clusterAutoscalerMinNodes == e.clusterAutoscalerMinNodes
        else next.clusterAutoscalerMinNodes == cs.clusterAutoscalerMinNodes)
    && (if e.clusterAutoscalerMaxNodes != 0 then next.clusterAutoscalerMaxNodes == e.clusterAutoscalerMaxNodes
        else next.clusterAutoscalerMaxNodes == cs.clusterAutoscalerMaxNodes)
    && (if e.description != "" then next.description == e.description else next.description == cs.description)
    && (if e.tags != "" then next.tags == e.tags else next.tags == cs.tags)
    && next.apiProvider == cs.apiProvider && next.cloudProvider == cs.cloudProvider
    && next.clusterType == cs.clusterType && next.region == cs.region
    && next.podCidrBlock == cs.podCidrBlock && next.sshKeyName == cs.sshKeyName
  }

  /** Each argument either replaces the stored value and makes the update
      dirty, or keeps it. */
  method Apply(cs: ClusterSpec, e: Edit) returns (next: ClusterSpec, dirty: bool)
    ensures IsEditOf(cs, e, next) && next.name == cs.name
    ensures next == Edited(cs, e)
    ensures dirty <==> e != NO_EDIT
  {
    dirty := false;
    var kubernetesVersion, nodeType := e.kubernetesVersion, e.nodeType;
    if kubernetesVersion == "" {
      kubernetesVersion := cs.kubernetesVersion;
    } else {
      dirty := true;
    }
    if nodeType == "" {
      nodeType := cs.nodeType;
    } else {
      dirty := true;
    }
    var nodeCount, masterNodeCount := e.nodeCount, e.masterNodeCount;
    if nodeCount == 0 {
      nodeCount := cs.nodeCount;
    } else {
      dirty := true;
    }
    if masterNodeCount == 0 {
      masterNodeCount := cs.masterNodeCount;
    } else {
      dirty := true;
    }
    var enabled := cs.clusterAutoscalerEnabled;
    if e.clusterAutoscalerEnabled.Some? {
      enabled := e.clusterAutoscalerEnabled.value;
      dirty := true;
    }
    var min, max := e.clusterAutoscalerMinNodes, e.clusterAutoscalerMaxNodes;
    if min == 0 {
      min := cs.clusterAutoscalerMinNodes;
    } else {
      dirty := true;
    }
    if max == 0 {
      max := cs.clusterAutoscalerMaxNodes;
    } else {
      dirty := true;
    }
    var description, tags := e.description, e.tags;
    if description == "" {
      description := cs.description;
    } else {
      dirty := true;
    }
    if tags == "" {
      tags := cs.tags;
    } else {
      dirty := true;
    }
    assert kubernetesVersion == OrStored(e.kubernetesVersion, cs.kubernetesVersion);
    assert nodeType == OrStored(e.nodeType, cs.nodeType);
    assert nodeCount == OrStoredNumber(e.nodeCount, cs.nodeCount);
    assert masterNodeCount == OrStoredNumber(e.masterNodeCount, cs.masterNodeCount);
    assert enabled == Or(e.clusterAutoscalerEnabled, cs.clusterAutoscalerEnabled);
    assert min == OrStoredNumber(e.clusterAutoscalerMinNodes, cs.clusterAutoscalerMinNodes);
    assert max == OrStoredNumber(e.clusterAutoscalerMaxNodes, cs.clusterAutoscalerMaxNodes);
    assert description == OrStored(e.description, cs.description);
    assert tags == OrStored(e.tags, cs.tags);
    hide OrStored, OrStoredNumber, Or;
    next := cs.(kubernetesVersion := kubernetesVersion, nodeType := nodeType,
                nodeCount := nodeCount, masterNodeCount := masterNodeCount,
                clusterAutoscalerEnabled := enabled, clusterAutoscalerMinNodes := min,
                clusterAutoscalerMaxNodes := max, description := description, tags := tags);
  }

  lemma EditedMeans(cs: ClusterSpec, e: Edit)
    ensures IsEditOf(cs, e, Edited(cs, e))
  {
  }

  /** In a history of edits the last argument given for a field wins, shown for
      the two node counts, which are easily confused. */
  lemma {:induction false} LastCountWins(edits: seq<Edit>, k: nat)
    requires k < |edits|
    ensures edits[k].nodeCount != 0 && (forall j | k < j < |edits| :: edits[j].nodeCount == 0) ==>
              MergedAll(edits).nodeCount == edits[k].nodeCount
    ensures edits[k].masterNodeCount != 0 && (forall j | k < j < |edits| :: edits[j].masterNodeCount == 0) ==>
              MergedAll(edits).masterNodeCount == edits[k].masterNodeCount
    decreases |edits|
  {
    var rest := edits[1..];
    if k > 0 {
      assert rest[k - 1] == edits[k] && forall j | k - 1 < j < |rest| :: rest[j] == edits[j + 1];
      LastCountWins(rest, k - 1);
    } else {
      NoCounts(rest);
      assert forall j | 0 <= j < |rest| :: rest[j] == edits[j + 1];
    }
  }

  lemma {:induction false} NoCounts(edits: seq<Edit>)
    ensures (forall j | 0 <= j < |edits| :: edits[j].nodeCount == 0) ==> MergedAll(edits).nodeCount == 0
    ensures (forall j | 0 <= j < |edits| :: edits[j].masterNodeCount == 0) ==> MergedAll(edits).masterNodeCount == 0
    decreases |edits|
  {
    if edits != [] {
      NoCounts(edits[1..]);
      assert forall j | 0 <= j < |edits[1..]| :: edits[1..][j] == edits[j + 1];
    }
  }

  // ------------------------------------------------------------ the store

  /** What the create command guarantees of every specification in the store. */
  ghost predicate Sound(specs: map<string, ConfigMap>, awsRegions: set<string>) {
    forall n | n in specs :: SoundSpec(n, specs[n], awsRegions)
  }

  ghost predicate SoundSpec(name: string, cm: ConfigMap, awsRegions: set<string>) {
    && cm.name == name && FromConfigMap(cm).Success?
    && var cs := FromConfigMap(cm).value;
       ValidTriple(TripleOf(cs)) && cs.cloudProvider == "aws" && cs.region in awsRegions
  }

  class SpecStore {
    var specs: map<string, ConfigMap>
    const awsRegions: set<string>
    const fates: nat -> Fault
    var calls: nat

    constructor (specs: map<string, ConfigMap>, awsRegions: set<string>, fates: nat -> Fault)
      ensures this.specs == specs && this.awsRegions == awsRegions && this.fates == fates
    {
      this.specs, this.awsRegions, this.fates, calls := specs, awsRegions, fates, 0;
    }

    /** The last call was one that fails. */
    ghost predicate LastFailed()
      reads this
    {
      calls > 0 && fates(calls - 1) != Fine
    }

    method Get(name: string) returns (r: Result<ClusterSpec, SpecError>)
      modifies this`calls
      ensures calls > old(calls) && (r == Failure(SpecCallFailed) ==> LastFailed())
      ensures r != Failure(SpecCallFailed) ==>
                r == if name in specs then FromConfigMap(specs[name]) else Failure(SpecNotFound)
    {
      var fate := fates(calls);
      calls := calls + 1;
      if fate != Fine {
        return Failure(SpecCallFailed);
      }
      if name !in specs {
        return Failure(SpecNotFound);
      }
      r := FromConfigMap(specs[name]);
    }

    /** A write that may fail before or after taking effect. */
    method Put(cm: ConfigMap) returns (ok: bool)
      modifies this
      ensures specs == old(specs) || specs == old(specs)[cm.name := cm]
      ensures ok ==> specs == old(specs)[cm.name := cm]
      ensures calls > old(calls) && (!ok ==> LastFailed())
    {
      var fate := fates(calls);
      calls := calls + 1;
      ok := fate == Fine;
      if fate != Lost {
        specs := specs[cm.name := cm];
      }
    }

    method Create(cs: ClusterSpec) returns (r: Result<(), SpecError>)
      modifies this
      // without a failing call it succeeds exactly for a valid new specification
      ensures r == Failure(SpecCallFailed) ==> calls > old(calls) && LastFailed()
      ensures r != Failure(SpecCallFailed) ==>
                (r.Success? <==> && ValidTriple(TripleOf(cs)) && cs.cloudProvider == "aws" && cs.region in awsRegions
                                 && cs.name !in old(specs))
      ensures r.Failure? && r.error != SpecCallFailed ==> specs == old(specs)
      ensures specs == old(specs) || specs == old(specs)[cs.name := ToConfigMap(cs.(podCidrBlock := ""))]
      ensures r.Success? ==> specs == old(specs)[cs.name := ToConfigMap(cs.(podCidrBlock := ""))]
      ensures old(Sound(specs, awsRegions)) ==> Sound(specs, awsRegions)
      // nothing existing is overwritten
      ensures forall n | n in old(specs) :: n in specs && specs[n] == old(specs)[n]
    {
      hide FromConfigMap, ToConfigMap;
      var checked := CheckTriple(TripleOf(cs));
      if checked.Failure? {
        return Failure(checked.error);
      }
      // regions are only known for aws
      if cs.cloudProvider != "aws" || cs.region !in awsRegions {
        return Failure(InvalidRegion);
      }
      var found := Get(cs.name);
      if found.Success? {
        return Failure(AlreadyExists);
      }
      if found.error != SpecNotFound {
        return Failure(found.error);
      }
      SpecRoundTrip(cs.(podCidrBlock := ""));
      var ok := Put(ToConfigMap(cs.(podCidrBlock := "")));
      r := if ok then Success(()) else Failure(SpecCallFailed);
    }

    /** A clean update writes nothing; a dirty one stores the edited values. */
    method Update(name: string, e: Edit) returns (r: Result<bool, SpecError>)
      modifies this
      // without a failing call it succeeds exactly for a readable specification
      ensures r == Failure(SpecCallFailed) ==> calls > old(calls) && LastFailed()
      ensures r != Failure(SpecCallFailed) ==>
                (r.Success? <==> name in old(specs) && FromConfigMap(old(specs)[name]).Success?)
      ensures r.Failure? && r.error != SpecCallFailed ==> specs == old(specs)
      ensures r.Success? ==> r.value == (e != NO_EDIT)
      ensures r == Success(false) ==> specs == old(specs)
      ensures specs != old(specs) || r == Success(true) ==>
                && e != NO_EDIT && name in old(specs) && FromConfigMap(old(specs)[name]).Success?
                && specs == old(specs)[name
                           := ToConfigMap(Edited(FromConfigMap(old(specs)[name]).value, e).(name := name))]
      // what a dirty update stores, field by field
      ensures r == Success(true) ==>
                && name in specs && FromConfigMap(specs[name]).Success? && FromConfigMap(specs[name]).value.name == name
                && IsEditOf(FromConfigMap(old(specs)[name]).value, e, FromConfigMap(specs[name]).value)
      ensures forall n | n != name ::
                (n in specs <==> n in old(specs)) && (n in specs ==> specs[n] == old(specs)[n])
      ensures old(Sound(specs, awsRegions)) ==> Sound(specs, awsRegions)
      // the stored triple never changes
      ensures forall n | n in old(specs) && FromConfigMap(old(specs)[n]).Success? ::
                n in specs && SubchartName(specs[n]) == SubchartName(old(specs)[n])
    {
      hide FromConfigMap, ToConfigMap;
      var got := Get(name);
      if got.Failure? {
        return Failure(got.error);
      }
      var next, dirty := Apply(got.value, e);
      if !dirty {
        return Success(false);
      }
      SpecRoundTrip(next.(name := name));
      var ok := Put(ToConfigMap(next.(name := name)));
      r := if ok then Success(true) else Failure(SpecCallFailed);
    }
  }
}
