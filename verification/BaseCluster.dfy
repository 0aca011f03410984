/** Cluster templates: preparation (pkg/basecluster/prepare.go) against
    validation (pkg/basecluster/validate.go). A manifest is the list of its
    resources; reading and writing YAML is taken to be faithful. */
module BaseCluster {
  import opened Wrappers
  import opened Decimal

  const MAX_KEY := "cluster.x-k8s.io/cluster-api-autoscaler-node-group-max-size"
  const MIN_KEY := "cluster.x-k8s.io/cluster-api-autoscaler-node-group-min-size"
  const KUSTOMIZATION := "kustomization.yaml"
  const CONFIGURATIONS := "configurations.yaml"

  datatype Resource = Resource(kind: string, name: string, namespace: string, annotations: Annotations)

  datatype Content =
    | Resources(resources: seq<Resource>)
    | Unreadable
    | Kustomization(manifestFileName: string)
    | Configurations

  /** A directory entry. */
  datatype Entry = Subdirectory(name: string) | File(name: string, content: Content)

  datatype TemplateError =
    | FoundSubdirectory
    | MultipleManifests
    | NoManifest
    | NoKustomization
    | NoConfigurations
    | BuilderFailed
    | MultipleClusters
    | NoCluster
    | HasNamespace
    | WriteFailed

  type Named = Result<string, TemplateError>

  // ------------------------------------------------------------ validation

  /** The name of the only Cluster resource, as both loops compute it: a later
      Cluster is an error once a nonempty name was found. */
  function ClusterName(resources: seq<Resource>, found: string): (r: Named)
    ensures r.Failure? ==> r.error == NoCluster || r.error == MultipleClusters
  {
    if resources == [] then
      if found == "" then Failure(NoCluster) else Success(found)
    else if resources[0].kind != "Cluster" then ClusterName(resources[1..], found)
    else if found != "" then Failure(MultipleClusters)
    else ClusterName(resources[1..], resources[0].name)
  }

  /** Validate: the first resource that offends decides the error. */
  function Validated(resources: seq<Resource>, found: string): Named {
    if resources == [] then
      if found == "" then Failure(NoCluster) else Success(found)
    else if resources[0].namespace != "" then Failure(HasNamespace)
    else if resources[0].kind != "Cluster" then Validated(resources[1..], found)
    else if found != "" then Failure(MultipleClusters)
    else Validated(resources[1..], resources[0].name)
  }

  method Validate(content: Content) returns (result: Named)
    ensures result == if content.Resources? then Validated(content.resources, "") else Failure(BuilderFailed)
  {
    if !content.Resources? {
      return Failure(BuilderFailed);
    }
    var infos, clusterName := content.resources, "";
    for i := 0 to |infos|
      invariant Validated(infos[i..], clusterName) == Validated(infos, "")
    {
      var info := infos[i];
      assert infos[i..][0] == info && infos[i..][1..] == infos[i + 1..];
      if info.namespace != "" {
        return Failure(HasNamespace);
      }
      if info.kind == "Cluster" {
        if clusterName != "" {
          return Failure(MultipleClusters);
        }
        clusterName := info.name;
      }
    }
    result := if clusterName == "" then Failure(NoCluster) else Success(clusterName);
  }

  /** The documented condition: no resource has a namespace and exactly one
      Cluster (with a name) exists. */
  lemma {:induction false} ValidatedMeans(resources: seq<Resource>, found: string)
    ensures Validated(resources, found).Success? <==>
              && (forall r | r in resources :: r.namespace == "")
              && ClusterName(resources, found).Success?
    ensures Validated(resources, found).Success? ==> Validated(resources, found) == ClusterName(resources, found)
  {
    if resources != [] {
      assert resources == [resources[0]] + resources[1..];
      ValidatedMeans(resources[1..], found);
      ValidatedMeans(resources[1..], resources[0].name);
    }
  }

  ghost predicate OnlyCluster(resources: seq<Resource>, i: int, n: string) {
    && 0 <= i < |resources| && resources[i].kind == "Cluster" && resources[i].name == n
    && forall j | 0 <= j < |resources| && j != i :: resources[j].kind != "Cluster"
  }

  /** What a successful name means, when every Cluster has a name: there is
      exactly one, and it is called that. */
  lemma {:induction false} ClusterNameMeans(resources: seq<Resource>, found: string, n: string)
    requires forall r | r in resources && r.kind == "Cluster" :: r.name != ""
    ensures ClusterName(resources, found) == Success(n) <==>
              if found != "" then n == found && forall r | r in resources :: r.kind != "Cluster"
              else exists i :: OnlyCluster(resources, i, n)
    decreases resources
  {
    if resources != [] {
      var first, rest := resources[0], resources[1..];
      assert resources == [first] + rest && first in resources;
      if first.kind != "Cluster" {
        ClusterNameMeans(rest, found, n);
        if i :| OnlyCluster(rest, i, n) {
          assert OnlyCluster(resources, i + 1, n);
        }
        if i :| OnlyCluster(resources, i, n) {
          assert OnlyCluster(rest, i - 1, n);
        }
      } else if found == "" {
        ClusterNameMeans(rest, first.name, n);
        if n == first.name && forall r | r in rest :: r.kind != "Cluster" {
          assert OnlyCluster(resources, 0, n);
        }
        if i :| OnlyCluster(resources, i, n) {
          assert i == 0;
          forall r | r in rest ensures r.kind != "Cluster" {
            var j :| 0 <= j < |rest| && rest[j] == r;
            assert resources[j + 1] == r;
          }
        }
      }
    }
  }

  /** Which error, when every Cluster has a name: none found, or a second one. */
  lemma {:induction false} ClusterNameErrors(resources: seq<Resource>, found: string)
    requires forall r | r in resources && r.kind == "Cluster" :: r.name != ""
    ensures ClusterName(resources, found) == Failure(NoCluster) <==>
              found == "" && forall r | r in resources :: r.kind != "Cluster"
    ensures ClusterName(resources, found).Success? || ClusterName(resources, found) == Failure(NoCluster)
            || ClusterName(resources, found) == Failure(MultipleClusters)
    decreases resources
  {
    if resources != [] {
      var first, rest := resources[0], resources[1..];
      assert resources == [first] + rest && first in resources;
      ClusterNameErrors(rest, found);
      ClusterNameErrors(rest, first.name);
    }
  }

  /** A successful validation never returns the empty name. */
  lemma {:induction false} ValidatedNameIsNonempty(resources: seq<Resource>, found: string)
    ensures Validated(resources, found).Success? ==> Validated(resources, found).value != ""
  {
    if resources != [] {
      ValidatedNameIsNonempty(resources[1..], found);
      ValidatedNameIsNonempty(resources[1..], resources[0].name);
    }
  }

  // ------------------------------------------------------------ preparation

  /** addClusterAutoscalerAnnotations: only missing or empty values are filled. */
  function Filled(annotations: Annotations, max: string, min: string): Annotations {
    var entries := if annotations.Some? then annotations.value else map[];
    var entries1 := if Lookup(Some(entries), MAX_KEY) == "" then entries[MAX_KEY := max] else entries;
    Some(if Lookup(Some(entries1), MIN_KEY) == "" then entries1[MIN_KEY := min] else entries1)
  }

  predicate NeedsFilling(annotations: Annotations) {
    Lookup(annotations, MAX_KEY) == "" || Lookup(annotations, MIN_KEY) == ""
  }

  function PreparedResource(r: Resource, max: string, min: string): Resource {
    var bare := r.(namespace := "");
    if r.kind == "MachineDeployment" && NeedsFilling(r.annotations)
    then bare.(annotations := Filled(r.annotations, max, min)) else bare
  }

  function PreparedAll(resources: seq<Resource>, max: string, min: string): seq<Resource> {
    seq(|resources|, i requires 0 <= i < |resources| => PreparedResource(resources[i], max, min))
  }

  /** prepareCAPIManifestThenEncode on one resource. */
  method PrepareResource(r: Resource, max: string, min: string) returns (out: Resource, modified: bool)
    ensures out == PreparedResource(r, max, min) && IsPrepared(r, out, max, min)
    ensures !modified ==> out == r
    ensures max != "" && min != "" && out == r ==> !modified
  {
    out, modified := r, false;
    if out.namespace != "" {
      out := out.(namespace := "");
      modified := true;
    }
    if out.kind == "MachineDeployment" {
      var annotations, changed := out.annotations, false;
      if annotations.None? {
        annotations := Some(map[]);
      }
      if Lookup(annotations, MAX_KEY) == "" {
        annotations := Some(annotations.value[MAX_KEY := max]);
        changed := true;
      }
      if Lookup(annotations, MIN_KEY) == "" {
        annotations := Some(annotations.value[MIN_KEY := min]);
        changed := true;
      }
      if changed {
        out := out.(annotations := annotations);
        modified := true;
      }
    }
  }

  /** Prepare on a manifest: the cluster name and, when anything was modified
      and the call is not only for validation, the new manifest. */
  method Prepare(content: Content, validateOnly: bool, max: string, min: string)
    returns (result: Named, modified: Option<Content>)
    ensures result == if content.Resources? then ClusterName(content.resources, "") else Failure(BuilderFailed)
    ensures result.Failure? || validateOnly ==> modified.None?
    ensures modified.Some? ==>
              && content.Resources?
              && modified.value == Resources(PreparedAll(content.resources, max, min))
    ensures result.Success? && !validateOnly && modified.None? ==>
              content.Resources? && PreparedAll(content.resources, max, min) == content.resources
    ensures max != "" && min != "" && modified.Some? ==>
              content.Resources? && PreparedAll(content.resources, max, min) != content.resources
  {
    if !content.Resources? {
      return Failure(BuilderFailed), None;
    }
    var infos, clusterName, dirty, buf := content.resources, "", false, [];
    for i := 0 to |infos|
      invariant ClusterName(infos[i..], clusterName) == ClusterName(infos, "")
      invariant buf == PreparedAll(infos, max, min)[..i]
      invariant !dirty ==> buf == infos[..i]
      invariant max != "" && min != "" && buf == infos[..i] ==> !dirty
    {
      var info := infos[i];
      assert infos[i..][0] == info && infos[i..][1..] == infos[i + 1..];
      if info.kind == "Cluster" {
        if clusterName != "" {
          return Failure(MultipleClusters), None;
        }
        clusterName := info.name;
      }
      var out, changed := PrepareResource(info, max, min);
      assert infos[..i + 1][..i] == infos[..i] && (buf + [out])[..i] == buf;
      buf := buf + [out];
      dirty := dirty || changed;
    }
    if clusterName == "" {
      return Failure(NoCluster), None;
    }
    result := Success(clusterName);
    modified := if !validateOnly && dirty then Some(Resources(buf)) else None;
  }

  // ------------------------------------------------------------ directories

  /** The scan both directory checks share: reserved files are set aside, a
      subdirectory or a second manifest is an error. */
  datatype Scan = Scan(manifest: Option<Entry>, kustomization: bool, configurations: bool)

  function ScanFrom(entries: seq<Entry>, scan: Scan): (r: Result<Scan, TemplateError>)
    ensures r.Failure? ==> r.error == FoundSubdirectory || r.error == MultipleManifests
  {
    if entries == [] then Success(scan)
    else
      var e := entries[0];
      if e.Subdirectory? then Failure(FoundSubdirectory)
      else if e.name == KUSTOMIZATION then ScanFrom(entries[1..], scan.(kustomization := true))
      else if e.name == CONFIGURATIONS then ScanFrom(entries[1..], scan.(configurations := true))
      else if scan.manifest.Some? then Failure(MultipleManifests)
      else ScanFrom(entries[1..], scan.(manifest := Some(e)))
  }

  const EMPTY_SCAN := Scan(None, false, false)

  method ScanDir(infos: seq<Entry>) returns (result: Result<Scan, TemplateError>)
    ensures result == ScanFrom(infos, EMPTY_SCAN)
  {
    var scan := EMPTY_SCAN;
    for i := 0 to |infos|
      invariant ScanFrom(infos[i..], scan) == ScanFrom(infos, EMPTY_SCAN)
    {
      var info := infos[i];
      assert infos[i..][0] == info && infos[i..][1..] == infos[i + 1..];
      if info.Subdirectory? {
        return Failure(FoundSubdirectory);
      }
      if info.name == KUSTOMIZATION {
        scan := scan.(kustomization := true);
        continue;
      }
      if info.name == CONFIGURATIONS {
        scan := scan.(configurations := true);
        continue;
      }
      if scan.manifest.Some? {
        return Failure(MultipleManifests);
      }
      scan := scan.(manifest := Some(info));
    }
    result := Success(scan);
  }

  /** What validateDir decides about a listing. */
  function DirVerdict(entries: seq<Entry>): Named {
    match ScanFrom(entries, EMPTY_SCAN)
    case Failure(e) => Failure(e)
    case Success(scan) =>
      if scan.manifest.None? then Failure(NoManifest)
      else if !scan.kustomization then Failure(NoKustomization)
      else if !scan.configurations then Failure(NoConfigurations)
      else if scan.manifest.value.Subdirectory? || !scan.manifest.value.content.Resources? then Failure(BuilderFailed)
      else Validated(scan.manifest.value.content.resources, "")
  }

  method ValidateDir(infos: seq<Entry>) returns (result: Named)
    ensures result == DirVerdict(infos)
  {
    var scanned := ScanDir(infos);
    ScannedIsFile(infos, EMPTY_SCAN);
    match scanned {
      case Failure(e) => return Failure(e);
      case Success(scan) =>
        if scan.manifest.None? {
          return Failure(NoManifest);
        }
        if !scan.kustomization {
          return Failure(NoKustomization);
        }
        if !scan.configurations {
          return Failure(NoConfigurations);
        }
        result := Validate(scan.manifest.value.content);
    }
  }

  /** A directory with a manifest at position i and nothing else but the two
      reserved files, as often as they may be listed. */
  ghost predicate OneManifest(entries: seq<Entry>, i: int) {
    && 0 <= i < |entries| && IsManifest(entries[i])
    && forall j | 0 <= j < |entries| && j != i :: !IsManifest(entries[j])
  }

  ghost predicate HasFile(entries: seq<Entry>, name: string) {
    exists e :: e in entries && e.File? && e.name == name
  }

  ghost predicate NoManifestIn(entries: seq<Entry>) {
    forall e | e in entries :: !IsManifest(e)
  }

  ghost predicate AtMostOneManifest(entries: seq<Entry>) {
    forall i, j | 0 <= i < j < |entries| :: !(IsManifest(entries[i]) && IsManifest(entries[j]))
  }

  /** When a scan succeeds. */
  lemma {:induction false} ScanSucceeds(entries: seq<Entry>, scan: Scan)
    ensures ScanFrom(entries, scan).Success? <==>
              && (forall e | e in entries :: e.File?)
              && (if scan.manifest.Some? then NoManifestIn(entries) else AtMostOneManifest(entries))
    decreases entries
  {
    if entries != [] {
      var e, rest := entries[0], entries[1..];
      assert e in entries && forall f | f in rest :: f in entries;
      assert forall f | f in entries :: f == e || f in rest;
      PairsOfRest(entries);
      hide AtMostOneManifest;
      if e.name == KUSTOMIZATION {
        ScanSucceeds(rest, scan.(kustomization := true));
      } else if e.name == CONFIGURATIONS {
        ScanSucceeds(rest, scan.(configurations := true));
      } else {
        ScanSucceeds(rest, scan.(manifest := Some(e)));
      }
    }
  }

  /** What a successful scan reports. */
  lemma {:induction false} ScanReports(entries: seq<Entry>, scan: Scan)
    requires ScanFrom(entries, scan).Success?
    ensures var r := ScanFrom(entries, scan).value;
            && (r.kustomization <==> scan.kustomization || HasFile(entries, KUSTOMIZATION))
            && (r.configurations <==> scan.configurations || HasFile(entries, CONFIGURATIONS))
            && (forall e :: r.manifest == Some(e) <==> scan.manifest == Some(e) || (e in entries && IsManifest(e)))
    decreases entries
  {
    if entries != [] {
      var e, rest := entries[0], entries[1..];
      FilesOfRest(entries, KUSTOMIZATION);
      FilesOfRest(entries, CONFIGURATIONS);
      assert forall f :: f in entries <==> f == e || f in rest;
      hide HasFile;
      if e.name == KUSTOMIZATION {
        ScanReports(rest, scan.(kustomization := true));
      } else if e.name == CONFIGURATIONS {
        ScanReports(rest, scan.(configurations := true));
      } else {
        ScanReports(rest, scan.(manifest := Some(e)));
        ScanSucceeds(rest, scan.(manifest := Some(e)));
      }
    }
  }

  lemma FilesOfRest(entries: seq<Entry>, name: string)
    requires entries != []
    ensures HasFile(entries, name) <==> (entries[0].File? && entries[0].name == name) || HasFile(entries[1..], name)
  {
    assert entries[0] in entries;
    assert forall f :: f in entries <==> f == entries[0] || f in entries[1..];
  }

  lemma PairsOfRest(entries: seq<Entry>)
    requires entries != []
    ensures AtMostOneManifest(entries)
       <==> (IsManifest(entries[0]) ==> NoManifestIn(entries[1..])) && AtMostOneManifest(entries[1..])
    ensures IsManifest(entries[0]) && NoManifestIn(entries[1..]) ==> AtMostOneManifest(entries)
    ensures NoManifestIn(entries) <==> !IsManifest(entries[0]) && NoManifestIn(entries[1..])
  {
    var rest := entries[1..];
    assert forall f :: f in entries <==> f == entries[0] || f in rest;
    if AtMostOneManifest(entries) {
      forall i, j | 0 <= i < j < |rest| ensures !(IsManifest(rest[i]) && IsManifest(rest[j])) {
        assert rest[i] == entries[i + 1] && rest[j] == entries[j + 1];
      }
      forall e | e in rest && IsManifest(entries[0]) ensures !IsManifest(e) {
        var j :| 0 <= j < |rest| && rest[j] == e;
        assert entries[j + 1] == e;
      }
    } else {
      var i, j :| 0 <= i < j < |entries| && IsManifest(entries[i]) && IsManifest(entries[j]);
      assert entries[j] == rest[j - 1] && rest[j - 1] in rest;
      if i > 0 {
        assert entries[i] == rest[i - 1];
      }
    }
  }

  /** What a template directory is: files only, exactly one of them a manifest,
      both reserved files there, and a manifest that validates. */
  lemma ValidDirectoryMeans(entries: seq<Entry>, n: string)
    ensures DirVerdict(entries) == Success(n) <==>
              && (forall e | e in entries :: e.File?)
              && HasFile(entries, KUSTOMIZATION) && HasFile(entries, CONFIGURATIONS)
              && exists i :: OneManifest(entries, i) && entries[i].content.Resources?
                             && Validated(entries[i].content.resources, "") == Success(n)
  {
    var scanned := ScanFrom(entries, EMPTY_SCAN);
    ScanSucceeds(entries, EMPTY_SCAN);
    if scanned.Success? {
      ScanReports(entries, EMPTY_SCAN);
      if scanned.value.manifest.Some? {
        var i :| 0 <= i < |entries| && entries[i] == scanned.value.manifest.value;
        assert OneManifest(entries, i);
      }
    }
    if i :| OneManifest(entries, i) {
      assert entries[i] in entries;
      assert AtMostOneManifest(entries);
      assert scanned.Success? ==> scanned.value.manifest == Some(entries[i]);
    }
  }

  /** Which error a directory of files with at most one manifest gets. */
  lemma DirectoryErrors(entries: seq<Entry>)
    requires (forall e | e in entries :: e.File?) && AtMostOneManifest(entries)
    ensures NoManifestIn(entries) ==> DirVerdict(entries) == Failure(NoManifest)
    ensures !NoManifestIn(entries) && !HasFile(entries, "kustomization.yaml") ==>
              DirVerdict(entries) == Failure(NoKustomization)
    ensures !NoManifestIn(entries) && HasFile(entries, "kustomization.yaml") ==>
              !HasFile(entries, "configurations.yaml") ==> DirVerdict(entries) == Failure(NoConfigurations)
  {
    ScanSucceeds(entries, EMPTY_SCAN);
    ScanReports(entries, EMPTY_SCAN);
  }

  /** And any other directory. */
  lemma {:induction false} ScanErrors(entries: seq<Entry>, scan: Scan)
    requires forall e | e in entries :: e.File?
    ensures ScanFrom(entries, scan).Failure? ==> ScanFrom(entries, scan) == Failure(MultipleManifests)
    decreases entries
  {
    if entries != [] {
      var e, rest := entries[0], entries[1..];
      assert e in entries && forall f | f in rest :: f in entries;
      ScanErrors(rest, scan.(kustomization := true));
      ScanErrors(rest, scan.(configurations := true));
      ScanErrors(rest, scan.(manifest := Some(e)));
    }
  }

  lemma {:induction false} ScannedIsFile(entries: seq<Entry>, scan: Scan)
    requires scan.manifest.Some? ==> scan.manifest.value.File?
    ensures var r := ScanFrom(entries, scan);
            r.Success? && r.value.manifest.Some? ==> r.value.manifest.value.File?
  {
    if entries != [] && !entries[0].Subdirectory? {
      var e := entries[0];
      if e.name == KUSTOMIZATION {
        ScannedIsFile(entries[1..], scan.(kustomization := true));
      } else if e.name == CONFIGURATIONS {
        ScannedIsFile(entries[1..], scan.(configurations := true));
      } else if scan.manifest.None? {
        ScannedIsFile(entries[1..], scan.(manifest := Some(e)));
      }
    }
  }

  // ------------------------------------------------------------ prepareDir

  /** Preparing a resource twice, with any bounds, is preparing it once. */
  lemma PreparedTwice(resources: seq<Resource>, max: string, min: string, max': string, min': string)
    requires max != "" && min != ""
    ensures var once := PreparedAll(resources, max, min);
            PreparedAll(once, max', min') == once
  {
    var once := PreparedAll(resources, max, min);
    forall i | 0 <= i < |resources| ensures PreparedResource(once[i], max', min') == once[i] {
      assert once[i] == PreparedResource(resources[i], max, min);
    }
  }

  /** What preparation does to one resource, in plain terms: the namespace goes;
      of a machine deployment each bound that was missing or empty is set, the
      maximum under max-size and the minimum under min-size; nothing else. */
  ghost predicate IsPrepared(r: Resource, r': Resource, max: string, min: string) {
    && r'.kind == r.kind && r'.name == r.name && r'.namespace == ""
    && if r.kind != "MachineDeployment" then r'.annotations == r.annotations
       else
         && IsFilled(r.annotations, r'.annotations, "cluster.x-k8s.io/cluster-api-autoscaler-node-group-max-size", max)
         && IsFilled(r.annotations, r'.annotations, "cluster.x-k8s.io/cluster-api-autoscaler-node-group-min-size", min)
         && forall key ::
              || key == "cluster.x-k8s.io/cluster-api-autoscaler-node-group-max-size"
              || key == "cluster.x-k8s.io/cluster-api-autoscaler-node-group-min-size"
              || SameValue(r.annotations, r'.annotations, key)
  }

  ghost predicate SameValue(a: Annotations, a': Annotations, key: string) {
    && (a.Some? && key in a.value <==> a'.Some? && key in a'.value)
    && (a.Some? && key in a.value && a'.Some? && key in a'.value ==> a'.value[key] == a.value[key])
  }

  ghost predicate IsFilled(a: Annotations, a': Annotations, key: string, bound: string) {
    if a.Some? && key in a.value && a.value[key] != "" then SameValue(a, a', key)
    else a'.Some? && key in a'.value && a'.value[key] == bound
  }

  lemma KeysDiffer()
    ensures MAX_KEY != MIN_KEY
  {
    assert MAX_KEY[52] == 'a' && MIN_KEY[52] == 'i';
  }

  /** Every resource is kept, in its place, and prepared as it should be. */
  lemma PreparedKeeps(resources: seq<Resource>, max: string, min: string, i: nat)
    requires i < |resources|
    ensures |PreparedAll(resources, max, min)| == |resources|
    ensures IsPrepared(resources[i], PreparedAll(resources, max, min)[i], max, min)
  {
    KeysDiffer();
    var r := resources[i];
    var r' := PreparedAll(resources, max, min)[i];
    assert r' == PreparedResource(r, max, min);
    if r.kind == "MachineDeployment" {
      var max', min' := MAX_KEY, MIN_KEY;
      assert IsFilled(r.annotations, r'.annotations, max', max);
      assert IsFilled(r.annotations, r'.annotations, min', min);
    }
  }

  lemma {:induction false} PreparedValidates(resources: seq<Resource>, max: string, min: string, found: string)
    ensures Validated(PreparedAll(resources, max, min), found) == ClusterName(resources, found)
  {
    if resources != [] {
      assert PreparedAll(resources, max, min)[1..] == PreparedAll(resources[1..], max, min);
      PreparedValidates(resources[1..], max, min, found);
      PreparedValidates(resources[1..], max, min, resources[0].name);
    }
  }

  ghost predicate Reserved(e: Entry, kustomization: bool) {
    e.File? && e.name == if kustomization then KUSTOMIZATION else CONFIGURATIONS
  }

  function Flagged(scan: Scan, kustomization: bool): Scan {
    if kustomization then scan.(kustomization := true) else scan.(configurations := true)
  }

  lemma {:induction false} FlagsCommute(entries: seq<Entry>, scan: Scan, kustomization: bool)
    requires ScanFrom(entries, scan).Success?
    ensures ScanFrom(entries, Flagged(scan, kustomization))
      == Success(Flagged(ScanFrom(entries, scan).value, kustomization))
  {
    if entries != [] {
      var e := entries[0];
      if e.name == KUSTOMIZATION {
        FlagsCommute(entries[1..], scan.(kustomization := true), kustomization);
      } else if e.name == CONFIGURATIONS {
        FlagsCommute(entries[1..], scan.(configurations := true), kustomization);
      } else {
        FlagsCommute(entries[1..], scan.(manifest := Some(e)), kustomization);
      }
    }
  }

  /** Adding a reserved file anywhere in a listing only sets its flag. */
  lemma {:induction false} InsertReserved(a: seq<Entry>, b: seq<Entry>, e: Entry, scan: Scan, kustomization: bool)
    requires Reserved(e, kustomization) && ScanFrom(a + b, scan).Success?
    ensures ScanFrom(a + [e] + b, scan) == Success(Flagged(ScanFrom(a + b, scan).value, kustomization))
    decreases a
  {
    if a == [] {
      assert a + b == b && a + [e] + b == [e] + b && ([e] + b)[1..] == b;
      FlagsCommute(b, scan, kustomization);
    } else {
      assert (a + b)[1..] == a[1..] + b && (a + [e] + b)[1..] == a[1..] + [e] + b;
      assert (a + b)[0] == a[0] == (a + [e] + b)[0];
      if a[0].name == KUSTOMIZATION {
        InsertReserved(a[1..], b, e, scan.(kustomization := true), kustomization);
      } else if a[0].name == CONFIGURATIONS {
        InsertReserved(a[1..], b, e, scan.(configurations := true), kustomization);
      } else {
        InsertReserved(a[1..], b, e, scan.(manifest := Some(a[0])), kustomization);
      }
    }
  }

  predicate IsManifest(e: Entry) {
    e.File? && e.name != KUSTOMIZATION && e.name != CONFIGURATIONS
  }

  /** The manifest of a listing is its only entry that is not reserved, and a
      new content for it changes nothing else about the scan. */
  lemma {:induction false} ReplaceManifest(entries: seq<Entry>, i: nat, scan: Scan, content: Content)
    requires i < |entries| && IsManifest(entries[i]) && ScanFrom(entries, scan).Success?
    ensures ScanFrom(entries, scan).value.manifest == Some(entries[i])
    ensures ScanFrom(entries[i := entries[i].(content := content)], scan)
         == Success(ScanFrom(entries, scan).value.(manifest := Some(entries[i].(content := content))))
    decreases entries
  {
    var e, rest := entries[0], entries[1..];
    var entries' := entries[i := entries[i].(content := content)];
    if i == 0 {
      assert entries'[1..] == rest;
      ManifestStays(rest, scan.(manifest := Some(e)), e, e.(content := content));
    } else {
      assert entries'[0] == e && rest[i - 1] == entries[i];
      assert entries'[1..] == rest[i - 1 := rest[i - 1].(content := content)];
      if e.name == KUSTOMIZATION {
        ReplaceManifest(rest, i - 1, scan.(kustomization := true), content);
      } else if e.name == CONFIGURATIONS {
        ReplaceManifest(rest, i - 1, scan.(configurations := true), content);
      } else {
        NoSecondManifest(rest, i - 1, scan.(manifest := Some(e)));
      }
    }
  }

  lemma {:induction false} NoSecondManifest(entries: seq<Entry>, i: nat, scan: Scan)
    requires i < |entries| && IsManifest(entries[i]) && scan.manifest.Some?
    ensures ScanFrom(entries, scan).Failure?
    decreases entries
  {
    var e, rest := entries[0], entries[1..];
    if i > 0 {
      assert rest[i - 1] == entries[i];
      NoSecondManifest(rest, i - 1, scan.(kustomization := true));
      NoSecondManifest(rest, i - 1, scan.(configurations := true));
    }
  }

  lemma {:induction false} ManifestStays(entries: seq<Entry>, scan: Scan, e: Entry, e': Entry)
    requires scan.manifest == Some(e) && ScanFrom(entries, scan).Success?
    ensures ScanFrom(entries, scan).value.manifest == Some(e)
    ensures ScanFrom(entries, scan.(manifest := Some(e')))
         == Success(ScanFrom(entries, scan).value.(manifest := Some(e')))
    decreases entries
  {
    if entries != [] {
      if entries[0].name == KUSTOMIZATION {
        ManifestStays(entries[1..], scan.(kustomization := true), e, e');
      } else if entries[0].name == CONFIGURATIONS {
        ManifestStays(entries[1..], scan.(configurations := true), e, e');
      }
    }
  }

  /** The only entry a successful scan reports as manifest. */
  method FindManifest(entries: seq<Entry>) returns (i: nat)
    requires ScanFrom(entries, EMPTY_SCAN).Success? && ScanFrom(entries, EMPTY_SCAN).value.manifest.Some?
    ensures i < |entries| && IsManifest(entries[i])
    ensures ScanFrom(entries, EMPTY_SCAN).value.manifest == Some(entries[i])
  {
    i := 0;
    var scan := EMPTY_SCAN;
    while !IsManifest(entries[i])
      invariant i < |entries| && scan.manifest.None?
      invariant ScanFrom(entries[i..], scan) == ScanFrom(entries, EMPTY_SCAN)
      decreases |entries| - i
    {
      assert entries[i..][0] == entries[i] && entries[i..][1..] == entries[i + 1..];
      scan := Flagged(scan, entries[i].name == KUSTOMIZATION);
      i := i + 1;
    }
    ReplaceManifest(entries, i, EMPTY_SCAN, entries[i].content);
  }

  /** A directory that validates and that preparation, whatever the bounds,
      leaves as it is. */
  ghost predicate Ready(entries: seq<Entry>) {
    && DirVerdict(entries).Success?
    && var manifest := ScanFrom(entries, EMPTY_SCAN).value.manifest.value;
    && forall max, min :: PreparedAll(manifest.content.resources, max, min) == manifest.content.resources
  }

  // ------------------------------------------------------------ listings

  /** A listing without the files of certain names. */
  function Except(entries: seq<Entry>, names: set<string>): seq<Entry> {
    if entries == [] then []
    else (if entries[0].name in names then [] else [entries[0]]) + Except(entries[1..], names)
  }

  lemma {:induction false} ExceptNone(entries: seq<Entry>, names: set<string>)
    requires forall e | e in entries :: e.name !in names
    ensures Except(entries, names) == entries
  {
    if entries != [] {
      assert entries == [entries[0]] + entries[1..];
      ExceptNone(entries[1..], names);
    }
  }

  lemma {:induction false} ExceptInserted(a: seq<Entry>, e: Entry, b: seq<Entry>, names: set<string>)
    requires e.name in names
    ensures Except(a + [e] + b, names) == Except(a + b, names)
    decreases |a|
  {
    if a == [] {
      assert a + [e] + b == [e] + b && ([e] + b)[1..] == b && a + b == b;
    } else {
      assert (a + [e] + b)[1..] == a[1..] + [e] + b && (a + b)[1..] == a[1..] + b;
      ExceptInserted(a[1..], e, b, names);
    }
  }

  /** The reserved files that a listing lacks. */
  ghost function Lacking(entries: seq<Entry>): set<string> {
    (if HasFile(entries, "kustomization.yaml") then {} else {"kustomization.yaml"})
    + if HasFile(entries, "configurations.yaml") then {} else {"configurations.yaml"}
  }

  /** What preparation makes of a listing whose manifest stands at i: the
      manifest is prepared where it stands, every other file is as it was, and
      what was lacking is there, the kustomization naming the manifest. */
  ghost predicate IsPreparedListing(before: seq<Entry>, after: seq<Entry>, i: nat, max: string, min: string) {
    var kept := Except(after, Lacking(before));
    && OneManifest(before, i) && before[i].content.Resources?
    && |kept| == |before| && kept[i].File? && kept[i].name == before[i].name && kept[i].content.Resources?
    && (forall j | 0 <= j < |before| && j != i :: kept[j] == before[j])
    && var old_, new_ := before[i].content.resources, kept[i].content.resources;
    && |new_| == |old_| && (forall k | 0 <= k < |old_| :: IsPrepared(old_[k], new_[k], max, min))
    && (forall e | e in after && e.name in Lacking(before) ::
          || e == File("kustomization.yaml", Kustomization(before[i].name))
          || e == File("configurations.yaml", Configurations))
    && HasFile(after, "kustomization.yaml") && HasFile(after, "configurations.yaml")
  }

  ghost function Unseen(scan: Scan): set<string> {
    (if scan.kustomization then {} else {KUSTOMIZATION}) + if scan.configurations then {} else {CONFIGURATIONS}
  }

  /** The listing with the reserved files that a scan did not see. */
  ghost predicate IsExtended(before: seq<Entry>, after: seq<Entry>, scan: Scan, manifest: string) {
    && Except(after, Unseen(scan)) == Except(before, Unseen(scan))
    && (forall e | e in after ::
          || e in before
          || (!scan.kustomization && e == File(KUSTOMIZATION, Kustomization(manifest)))
          || (!scan.configurations && e == File(CONFIGURATIONS, Configurations)))
  }

  lemma {:induction false} ListingPrepared(before: seq<Entry>, after: seq<Entry>, i: nat, max: string, min: string,
      scan: Scan)
    requires ScanFrom(before, EMPTY_SCAN) == Success(scan) && i < |before| && scan.manifest == Some(before[i])
    requires before[i].File? && before[i].content.Resources? && DirVerdict(after).Success?
    requires var done := PreparedAll(before[i].content.resources, max, min);
             IsExtended(before[i := File(before[i].name, Resources(done))], after, scan, before[i].name)
    ensures IsPreparedListing(before, after, i, max, min)
  {
    var done := PreparedAll(before[i].content.resources, max, min);
    var middle := before[i := File(before[i].name, Resources(done))];
    LackingIsUnseen(before, scan);
    ManifestAlone(before, i, scan);
    NoneLacking(before, i, Resources(done));
    ExceptNone(middle, Lacking(before));
    forall k | 0 <= k < |done| ensures IsPrepared(before[i].content.resources[k], done[k], max, min) {
      PreparedKeeps(before[i].content.resources, max, min, k);
    }
    assert |done| == |before[i].content.resources|;
    ValidDirectoryMeans(after, DirVerdict(after).value);
    hide ScanFrom, PreparedAll, IsPrepared, DirVerdict, Except, Lacking, OneManifest;
  }

  lemma {:induction false} LackingIsUnseen(before: seq<Entry>, scan: Scan)
    requires ScanFrom(before, EMPTY_SCAN) == Success(scan)
    ensures Unseen(scan) == Lacking(before) && forall e | e in before :: e.File?
  {
    ScanSucceeds(before, EMPTY_SCAN);
    ScanReports(before, EMPTY_SCAN);
  }

  lemma {:induction false} ManifestAlone(before: seq<Entry>, i: nat, scan: Scan)
    requires ScanFrom(before, EMPTY_SCAN) == Success(scan) && i < |before| && scan.manifest == Some(before[i])
    ensures OneManifest(before, i)
  {
    ScanSucceeds(before, EMPTY_SCAN);
    ScanReports(before, EMPTY_SCAN);
    assert AtMostOneManifest(before);
  }

  /** A new content for one file does not supply what a listing lacks. */
  lemma NoneLacking(before: seq<Entry>, i: nat, content: Content)
    requires i < |before| && before[i].File? && forall e | e in before :: e.File?
    ensures forall e | e in before[i := File(before[i].name, content)] :: e.name !in Lacking(before)
  {
    var middle := before[i := File(before[i].name, content)];
    forall e | e in middle ensures e.name !in Lacking(before) {
      var j :| 0 <= j < |middle| && middle[j] == e;
      assert before[j] in before && before[j].name == e.name;
    }
  }

  class TemplateDir {
    var entries: seq<Entry>
    var operations: nat
    const disk: nat -> Fault
    /** Where a directory listing shows the k-th created file. */
    const position: nat -> nat

    constructor (entries: seq<Entry>, disk: nat -> Fault, position: nat -> nat)
      ensures this.entries == entries
    {
      this.entries, operations, this.disk, this.position := entries, 0, disk, position;
    }

    /** The last file operation was one that fails. */
    ghost predicate LastFailed()
      reads this
    {
      operations > 0 && disk(operations - 1) != Fine
    }

    /** Overwrites a file; a late failure leaves it truncated. */
    method Overwrite(i: nat, content: Content) returns (ok: bool)
      requires i < |entries| && entries[i].File?
      modifies this
      ensures ok ==> entries == old(entries)[i := old(entries)[i].(content := content)]
      ensures operations == old(operations) + 1 && (!ok ==> LastFailed())
    {
      var fault := disk(operations);
      operations := operations + 1;
      ok := fault == Fine;
      if fault == Fine {
        entries := entries[i := entries[i].(content := content)];
      } else if fault == Late {
        entries := entries[i := entries[i].(content := Unreadable)];
      }
    }

    method Create(e: Entry) returns (ok: bool, ghost at: nat)
      modifies this
      ensures at <= |old(entries)|
      ensures ok ==> entries == old(entries)[..at] + [e] + old(entries)[at..]
      ensures operations == old(operations) + 1 && (!ok ==> LastFailed())
    {
      var fault := disk(operations);
      var k := position(operations);
      var place := if k <= |entries| then k else |entries|;
      operations := operations + 1;
      ok, at := fault == Fine, place;
      if fault == Fine {
        entries := entries[..place] + [e] + entries[place..];
      } else if fault == Late && e.File? {
        entries := entries[..place] + [e.(content := Unreadable)] + entries[place..];
      }
    }

    /** prepareDir. Success establishes exactly what validateDir checks, under
        the same name, and leaves nothing for a second preparation to do. */
    method PrepareDir(casMax: Int64, casMin: Int64) returns (result: Named)
      modifies this
      ensures result.Success? ==> DirVerdict(entries) == result && Ready(entries)
      // what it leaves, in plain terms
      ensures result.Success? ==>
                exists i: nat :: IsPreparedListing(old(entries), entries, i, Itoa(casMax), Itoa(casMin))
      // only a failing file operation prevents the outcome
      ensures result != Preparable(old(entries)) ==> result == Failure(WriteFailed)
      ensures result == Failure(WriteFailed) ==> operations > old(operations) && LastFailed()
      ensures (forall k | old(operations) <= k < operations :: disk(k) == Fine) ==> result == Preparable(old(entries))
      // nothing is written unless the listing and the manifest are in order
      ensures result.Failure? && result.error != WriteFailed ==> entries == old(entries)
      // a directory that is ready is left alone
      ensures old(Ready(entries)) ==> entries == old(entries) && result == DirVerdict(entries)
    {
      var before := entries;
      ScannedIsFile(before, EMPTY_SCAN);
      ValidIsPreparable(before);
      var scanned := ScanDir(entries);
      if scanned.Failure? {
        return Failure(scanned.error);
      }
      var scan := scanned.value;
      if scan.manifest.None? {
        return Failure(NoManifest);
      }
      var i := FindManifest(entries);
      var max, min := Itoa(casMax), Itoa(casMin);
      var modified;
      result, modified := Prepare(entries[i].content, false, max, min);
      if result.Failure? {
        return;
      }
      PreparedValidates(entries[i].content.resources, max, min, "");
      ghost var done := PreparedAll(entries[i].content.resources, max, min);
      if modified.Some? {
        var ok := Overwrite(i, modified.value);
        if !ok {
          return Failure(WriteFailed);
        }
      }
      ReplaceManifest(before, i, EMPTY_SCAN, Resources(done));
      assert before[i] == before[i].(content := before[i].content);
      assert before[i := before[i]] == before;
      var manifest := entries[i];
      assert ScanFrom(entries, EMPTY_SCAN) == Success(scan.(manifest := Some(manifest)));
      assert entries == before[i := File(before[i].name, Resources(done))];
      var written := AddReserved(scan, manifest);
      if !written {
        return Failure(WriteFailed);
      }
      forall max', min' ensures PreparedAll(done, max', min') == done {
        PreparedTwice(before[i].content.resources, max, min, max', min');
      }
      ListingPrepared(before, entries, i, max, min, scan);
    }

    /** The two reserved files are created when the scan did not see them. */
    method AddReserved(scan: Scan, manifest: Entry) returns (ok: bool)
      requires manifest.File? && ScanFrom(entries, EMPTY_SCAN) == Success(scan.(manifest := Some(manifest)))
      modifies this
      ensures ok ==> ScanFrom(entries, EMPTY_SCAN) == Success(Scan(Some(manifest), true, true))
      ensures scan.kustomization && scan.configurations ==> ok && entries == old(entries)
      ensures ok ==> IsExtended(old(entries), entries, scan, manifest.name)
      ensures operations >= old(operations) && (!ok ==> operations > old(operations) && LastFailed())
    {
      ok := true;
      var now := scan.(manifest := Some(manifest));
      if !scan.kustomization {
        ghost var before, at := entries, 0;
        ok, at := Create(File(KUSTOMIZATION, Kustomization(manifest.name)));
        if !ok {
          return;
        }
        assert before == before[..at] + before[at..];
        InsertReserved(before[..at], before[at..], File(KUSTOMIZATION, Kustomization(manifest.name)), EMPTY_SCAN, true);
        ExceptInserted(before[..at], File(KUSTOMIZATION, Kustomization(manifest.name)), before[at..], Unseen(scan));
        now := Flagged(now, true);
      }
      if !scan.configurations {
        ghost var before, at := entries, 0;
        ok, at := Create(File(CONFIGURATIONS, Configurations));
        if !ok {
          return;
        }
        assert before == before[..at] + before[at..];
        InsertReserved(before[..at], before[at..], File(CONFIGURATIONS, Configurations), EMPTY_SCAN, false);
        ExceptInserted(before[..at], File(CONFIGURATIONS, Configurations), before[at..], Unseen(scan));
      }
    }
  }

  /** The outcome of prepareDir when every file operation works. */
  function Preparable(entries: seq<Entry>): Named {
    match ScanFrom(entries, EMPTY_SCAN)
    case Failure(e) => Failure(e)
    case Success(scan) =>
      if scan.manifest.None? then Failure(NoManifest)
      else if scan.manifest.value.Subdirectory? || !scan.manifest.value.content.Resources? then Failure(BuilderFailed)
      else ClusterName(scan.manifest.value.content.resources, "")
  }

  /** Validation accepts no directory that preparation would refuse, and they
      agree on the name. */
  lemma ValidIsPreparable(entries: seq<Entry>)
    ensures DirVerdict(entries).Success? ==> Preparable(entries) == DirVerdict(entries)
  {
    var scanned := ScanFrom(entries, EMPTY_SCAN);
    if DirVerdict(entries).Success? {
      ValidatedMeans(scanned.value.manifest.value.content.resources, "");
    }
  }
}
