/** Regenerating a dynamic profile in git: createInGit of pkg/profile/git.go
    with ProcessBundles and CopyManifests of pkg/gitutils. A path is its list
    of components; GoPath shows that rendering and splitting such lists agree. */
module ProfileGit {
  import opened Wrappers
  import opened Overrides

  type Path = seq<string>

  datatype Bundle = Bundle(name: string, data: Option<string>, repoUrl: string, repoPath: string,
                           repoRevision: string, srcType: string)

  datatype AppSource = Workload(repoUrl: string, dir: Path) | Remote(repoUrl: string, repoPath: string)

  /** The values an application manifest is rendered from. */
  datatype AppSettings = AppSettings(appName: string, clusterName: string, source: AppSource,
                                     repoRevision: string, srcType: string, overrides: seq<KVPair>)

  datatype Content = Embedded(data: string) | BundleData(data: string) | Manifest(app: AppSettings)

  type Tree = map<Path, Content>

  /** One file creation. */
  datatype Write = Write(path: Path, content: Content)

  /** The embedded chart: what go:embed makes available. */
  datatype Node = Dir(name: string, children: seq<Node>) | File(name: string, data: string)

  const CLUSTER_NAME := "{{ .Values.clusterName }}"

  // ------------------------------------------------------------ trees

  /** A tree in which no file is also a directory. */
  ghost predicate Consistent(files: Tree) {
    forall p, q | p in files && q in files :: !(p < q)
  }

  predicate CanCreate(files: Tree, p: Path) {
    forall q | q in files.Keys :: !(q < p) && !(p < q)
  }

  function WriteAll(files: Tree, writes: seq<Write>): Tree
    decreases |writes|
  {
    if writes == [] then files else WriteAll(files[writes[0].path := writes[0].content], writes[1..])
  }

  function Without(files: Tree, dir: Path): Tree {
    map p | p in files && !(dir <= p) :: files[p]
  }

  function Under(files: Tree, dir: Path): Tree {
    map p | p in files && dir <= p :: files[p]
  }

  lemma {:induction false} WriteAllAppend(files: Tree, a: seq<Write>, b: seq<Write>)
    ensures WriteAll(files, a + b) == WriteAll(WriteAll(files, a), b)
    decreases |a|
  {
    if a == [] {
      assert a + b == b;
    } else {
      assert (a + b)[1..] == a[1..] + b;
      WriteAllAppend(files[a[0].path := a[0].content], a[1..], b);
    }
  }

  /** Writes only touch the paths they name, whatever was there before. */
  lemma {:induction false} WritesOverlay(files: Tree, writes: seq<Write>)
    ensures WriteAll(files, writes) == files + WriteAll(map[], writes)
    decreases |writes|
  {
    if writes != [] {
      var w := writes[0];
      WritesOverlay(files[w.path := w.content], writes[1..]);
      WritesOverlay(map[w.path := w.content], writes[1..]);
      assert map[][w.path := w.content] == map[w.path := w.content];
      assert files[w.path := w.content] == files + map[w.path := w.content];
    }
  }

  lemma {:induction false} WrittenPaths(writes: seq<Write>, p: Path)
    ensures p in WriteAll(map[], writes) <==> exists w :: w in writes && w.path == p
    decreases |writes|
  {
    if writes != [] {
      var w := writes[0];
      WritesOverlay(map[w.path := w.content], writes[1..]);
      WrittenPaths(writes[1..], p);
      assert WriteAll(map[], writes) == map[w.path := w.content] + WriteAll(map[], writes[1..]);
      if v :| v in writes && v.path == p && v != w {
        assert v in writes[1..];
      }
    }
  }

  /** A path that all writes to it agree on has that content. */
  lemma {:induction false} UnanimousWrite(writes: seq<Write>, w: Write)
    requires w in writes && forall v | v in writes && v.path == w.path :: v == w
    ensures w.path in WriteAll(map[], writes) && WriteAll(map[], writes)[w.path] == w.content
    decreases |writes|
  {
    var first := writes[0];
    WritesOverlay(map[first.path := first.content], writes[1..]);
    assert map[][first.path := first.content] == map[first.path := first.content];
    assert forall v | v in writes[1..] :: v in writes;
    if w in writes[1..] {
      UnanimousWrite(writes[1..], w);
    } else {
      WrittenPaths(writes[1..], w.path);
      assert first == w;
    }
  }

  /** Writes that never need a file where a directory is, or the reverse. */
  ghost predicate NoClash(files: Tree, writes: seq<Write>) {
    && (forall q, w | q in files && w in writes :: !(q < w.path) && !(w.path < q))
    && (forall v, w | v in writes && w in writes :: !(v.path < w.path))
  }

  lemma {:induction false} NoClashSplits(files: Tree, a: seq<Write>, b: seq<Write>)
    requires NoClash(files, a + b)
    ensures NoClash(files, a) && NoClash(WriteAll(files, a), b)
  {
    assert forall w | w in a :: w in a + b;
    assert forall w | w in b :: w in a + b;
    WritesOverlay(files, a);
    forall q, w | q in WriteAll(files, a) && w in b ensures !(q < w.path) && !(w.path < q) {
      WrittenPaths(a, q);
      if q !in files {
        var v :| v in a && v.path == q;
        assert v in a + b;
      }
    }
  }

  lemma {:induction false} NoClashMiddle(files: Tree, a: seq<Write>, b: seq<Write>, c: seq<Write>)
    ensures NoClash(files, a + b + c) ==> NoClash(WriteAll(files, a), b)
  {
    if NoClash(files, a + b + c) {
      assert a + b + c == a + (b + c);
      NoClashSplits(files, a, b + c);
      NoClashSplits(WriteAll(files, a), b, c);
    }
  }

  lemma CanCreateIsNoClash(files: Tree, w: Write)
    ensures CanCreate(files, w.path) <==> NoClash(files, [w])
  {
    assert w in [w];
  }

  /** Where nothing clashes in the end, nothing clashed on the way. */
  lemma {:induction false} ConsistentMeansNoClash(files: Tree, writes: seq<Write>)
    requires Consistent(WriteAll(files, writes))
    ensures NoClash(files, writes)
  {
    var all := WriteAll(files, writes);
    WritesOverlay(files, writes);
    forall w | w in writes ensures w.path in all {
      WrittenPaths(writes, w.path);
    }
  }

  // ------------------------------------------------------------ the embedded chart

  /** All files below a list of nodes, depth first, with their paths. */
  function Files(nodes: seq<Node>): seq<(Path, string)>
    decreases nodes
  {
    if nodes == [] then [] else FilesOf(nodes[0]) + Files(nodes[1..])
  }

  function FilesOf(node: Node): seq<(Path, string)>
    decreases node
  {
    match node
    case File(name, data) => [([name], data)]
    case Dir(name, children) => Prefixed(name, Files(children))
  }

  function Prefixed(name: string, files: seq<(Path, string)>): seq<(Path, string)> {
    seq(|files|, i requires 0 <= i < |files| => ([name] + files[i].0, files[i].1))
  }

  /** Looking a path up from the root. */
  ghost predicate Resolves(nodes: seq<Node>, path: Path, data: string)
    decreases nodes
  {
    exists i :: 0 <= i < |nodes| && ResolvesIn(nodes[i], path, data)
  }

  ghost predicate ResolvesIn(node: Node, path: Path, data: string)
    decreases node
  {
    match node
    case File(name, d) => path == [name] && d == data
    case Dir(name, children) => |path| > 1 && path[0] == name && Resolves(children, path[1..], data)
  }

  lemma {:induction false} FilesExact(nodes: seq<Node>, path: Path, data: string)
    ensures (path, data) in Files(nodes) <==> Resolves(nodes, path, data)
    decreases nodes, 1
  {
    if nodes != [] {
      FilesOfExact(nodes[0], path, data);
      FilesExact(nodes[1..], path, data);
      if i :| 0 < i < |nodes| && ResolvesIn(nodes[i], path, data) {
        assert nodes[1..][i - 1] == nodes[i];
      }
      if i :| 0 <= i < |nodes[1..]| && ResolvesIn(nodes[1..][i], path, data) {
        assert nodes[i + 1] == nodes[1..][i];
      }
    }
  }

  lemma {:induction false} FilesOfExact(node: Node, path: Path, data: string)
    ensures (path, data) in FilesOf(node) <==> ResolvesIn(node, path, data)
    decreases node, 0
  {
    match node
    case File(name, d) =>
    case Dir(name, children) =>
      if |path| > 1 && path[0] == name {
        assert path == [name] + path[1..];
        FilesExact(children, path[1..], data);
        if (path[1..], data) in Files(children) {
          var i :| 0 <= i < |Files(children)| && Files(children)[i] == (path[1..], data);
          assert Prefixed(name, Files(children))[i] == (path, data);
        }
      }
      if (path, data) in FilesOf(node) {
        var i :| 0 <= i < |Files(children)| && Prefixed(name, Files(children))[i] == (path, data);
        NonemptyPaths(children);
        assert Files(children)[i] == (path[1..], data);
      }
  }

  lemma {:induction false} NonemptyPaths(nodes: seq<Node>)
    ensures forall f | f in Files(nodes) :: f.0 != []
    decreases nodes
  {
    if nodes != [] {
      NonemptyPaths(nodes[1..]);
      forall f | f in FilesOf(nodes[0]) ensures f.0 != [] {
        if nodes[0].Dir? {
          var i :| 0 <= i < |FilesOf(nodes[0])| && FilesOf(nodes[0])[i] == f;
        }
      }
    }
  }

  /** Where CopyManifests puts a file: the first component is dropped. */
  function ChartWrite(mgmtPath: Path, filePath: Path, data: string): Write {
    Write(mgmtPath + if filePath == [] then [] else filePath[1..], Embedded(data))
  }

  function ChartWrites(root: Path, files: seq<(Path, string)>, mgmtPath: Path): seq<Write> {
    seq(|files|, i requires 0 <= i < |files| => ChartWrite(mgmtPath, root + files[i].0, files[i].1))
  }

  // ------------------------------------------------------------ bundles

  predicate IsStatic(b: Bundle) {
    b.data.Some?
  }

  /** Neither or both of data and repository is an error. */
  predicate WellTyped(b: Bundle) {
    if b.data.None? then b.repoUrl != "" else b.repoUrl == ""
  }

  function Settings(b: Bundle, clusterName: string, repoUrl: string, workloadPath: Path,
                    overrides: seq<KVPair>): AppSettings {
    AppSettings(clusterName + "-" + b.name, clusterName,
                if IsStatic(b) then Workload(repoUrl, workloadPath + [b.name]) else Remote(b.repoUrl, b.repoPath),
                if b.repoRevision == "" then "HEAD" else b.repoRevision,
                if IsStatic(b) then "" else b.srcType,
                if IsStatic(b) then [] else overrides)
  }

  function FileName(b: Bundle): string {
    b.name + ".yaml"
  }

  function AppWrite(b: Bundle, repoUrl: string, dir: Path, list: seq<Override>): Write {
    Write(dir + ["mgmt", "templates", FileName(b)],
          Manifest(Settings(b, CLUSTER_NAME, repoUrl, dir + ["workload"], GroupOf(list, b.name))))
  }

  function DataWrite(b: Bundle, dir: Path): Write
    requires IsStatic(b)
  {
    Write(dir + ["workload", b.name, FileName(b)], BundleData(b.data.value))
  }

  function WritesOf(b: Bundle, repoUrl: string, dir: Path, list: seq<Override>): seq<Write> {
    (if IsStatic(b) then [DataWrite(b, dir)] else []) + [AppWrite(b, repoUrl, dir, list)]
  }

  function BundleWrites(bundles: seq<Bundle>, repoUrl: string, dir: Path, list: seq<Override>): seq<Write> {
    if bundles == [] then []
    else
      BundleWrites(bundles[..|bundles| - 1], repoUrl, dir, list)
      + WritesOf(bundles[|bundles| - 1], repoUrl, dir, list)
  }

  lemma {:induction false} BundleWritesHas(bundles: seq<Bundle>, repoUrl: string, dir: Path,
                                           list: seq<Override>, w: Write)
    ensures w in BundleWrites(bundles, repoUrl, dir, list)
       <==> exists b ::
              b in bundles && (w == AppWrite(b, repoUrl, dir, list) || (IsStatic(b) && w == DataWrite(b, dir)))
  {
    if bundles != [] {
      var rest, b := bundles[..|bundles| - 1], bundles[|bundles| - 1];
      BundleWritesHas(rest, repoUrl, dir, list, w);
      hide AppWrite, DataWrite;
      assert b in bundles && forall c | c in rest :: c in bundles;
      assert forall c | c in bundles :: c in rest || c == b;
      hide BundleWrites;
    }
  }

  // ------------------------------------------------------------ regeneration

  /** Everything generated for a profile, in the order it is written. */
  function Generated(chart: seq<Node>, bundles: seq<Bundle>, repoUrl: string, dir: Path,
                     list: seq<Override>): seq<Write> {
    ChartWrites([], Files(chart), dir + ["mgmt"]) + BundleWrites(bundles, repoUrl, dir, list)
  }

  function Regenerated(tree: Tree, chart: seq<Node>, bundles: seq<Bundle>, repoUrl: string, dir: Path,
                       list: seq<Override>): Tree {
    WriteAll(Without(tree, dir), Generated(chart, bundles, repoUrl, dir, list))
  }

  lemma GeneratedUnder(chart: seq<Node>, bundles: seq<Bundle>, repoUrl: string, dir: Path, list: seq<Override>,
                       w: Write)
    requires w in Generated(chart, bundles, repoUrl, dir, list)
    ensures dir <= w.path
  {
    NonemptyPaths(chart);
    var chartWrites := ChartWrites([], Files(chart), dir + ["mgmt"]);
    if w in chartWrites {
      var i :| 0 <= i < |chartWrites| && chartWrites[i] == w;
    } else {
      BundleWritesHas(bundles, repoUrl, dir, list, w);
    }
  }

  /** Clean regeneration: outside the directory nothing changes, inside it
      everything is a function of the profile alone, whatever was there. */
  lemma RegenerationIsClean(tree: Tree, other: Tree, chart: seq<Node>, bundles: seq<Bundle>, repoUrl: string,
                            dir: Path, list: seq<Override>)
    ensures var r := Regenerated(tree, chart, bundles, repoUrl, dir, list);
            && Without(r, dir) == Without(tree, dir)
            && Under(r, dir) == Under(Regenerated(other, chart, bundles, repoUrl, dir, list), dir)
            && Under(r, dir) == WriteAll(map[], Generated(chart, bundles, repoUrl, dir, list))
  {
    var writes := Generated(chart, bundles, repoUrl, dir, list);
    WritesOverlay(Without(tree, dir), writes);
    WritesOverlay(Without(other, dir), writes);
    forall p | p in WriteAll(map[], writes) ensures dir <= p {
      WrittenPaths(writes, p);
      var w :| w in writes && w.path == p;
      GeneratedUnder(chart, bundles, repoUrl, dir, list, w);
    }
  }

  /** Bundle names that are distinct, and not the name of a chart template. */
  ghost predicate NamesFit(chart: seq<Node>, bundles: seq<Bundle>) {
    && (forall i, j | 0 <= i < j < |bundles| :: bundles[i].name != bundles[j].name)
    && (forall b, data, top | b in bundles :: !Resolves(chart, [top, "templates", FileName(b)], data))
  }

  /** Which generated write produces which part of the tree. */
  lemma ChartInMgmt(files: seq<(Path, string)>, dir: Path, v: Write)
    requires forall f | f in files :: f.0 != []
    requires v in ChartWrites([], files, dir + ["mgmt"])
    ensures |v.path| > |dir| && v.path[|dir|] == "mgmt"
    ensures exists f :: f in files && v.path == dir + ["mgmt"] + f.0[1..]
  {
    var i :| 0 <= i < |files| && ChartWrites([], files, dir + ["mgmt"])[i] == v;
    assert [] + files[i].0 == files[i].0 && files[i] in files;
  }

  lemma AppInMgmt(b: Bundle, repoUrl: string, dir: Path, list: seq<Override>)
    ensures var p := AppWrite(b, repoUrl, dir, list).path;
            |p| == |dir| + 3 && p[|dir|] == "mgmt" && p[|dir| + 2] == FileName(b)
  {
  }

  lemma DataInWorkload(b: Bundle, dir: Path)
    requires IsStatic(b)
    ensures var p := DataWrite(b, dir).path;
            |p| == |dir| + 3 && p[|dir|] == "workload" && p[|dir| + 1] == b.name
  {
  }

  lemma AppWriteAlone(chart: seq<Node>, bundles: seq<Bundle>, repoUrl: string, dir: Path, list: seq<Override>,
                      b: Bundle, v: Write)
    requires NamesFit(chart, bundles) && b in bundles && v in Generated(chart, bundles, repoUrl, dir, list)
    requires v.path == AppWrite(b, repoUrl, dir, list).path
    ensures v == AppWrite(b, repoUrl, dir, list)
  {
    NonemptyPaths(chart);
    var files := Files(chart);
    AppInMgmt(b, repoUrl, dir, list);
    if v in ChartWrites([], files, dir + ["mgmt"]) {
      ChartInMgmt(files, dir, v);
      var f :| f in files && v.path == dir + ["mgmt"] + f.0[1..];
      FilesExact(chart, f.0, f.1);
      TemplatePath(f.0, dir, FileName(b));
    } else {
      BundleWritesHas(bundles, repoUrl, dir, list, v);
      var c :| c in bundles && (v == AppWrite(c, repoUrl, dir, list) || (IsStatic(c) && v == DataWrite(c, dir)));
      AppInMgmt(c, repoUrl, dir, list);
      if IsStatic(c) {
        DataInWorkload(c, dir);
      }
      SameFileName(b, c);
      SameBundle(bundles, b, c);
    }
  }

  lemma TemplatePath(path: Path, dir: Path, file: string)
    requires path != [] && dir + ["mgmt"] + path[1..] == dir + ["mgmt", "templates", file]
    ensures path == [path[0], "templates", file]
  {
    var p := dir + ["mgmt", "templates", file];
    assert path[1..] == (dir + ["mgmt"] + path[1..])[|dir| + 1..] == p[|dir| + 1..] == ["templates", file];
    assert path == [path[0]] + path[1..];
  }

  lemma SameFileName(b: Bundle, c: Bundle)
    ensures FileName(b) == FileName(c) ==> b.name == c.name
  {
    assert FileName(b)[..|FileName(b)| - 5] == b.name;
    assert FileName(c)[..|FileName(c)| - 5] == c.name;
  }

  lemma SameBundle(bundles: seq<Bundle>, b: Bundle, c: Bundle)
    requires forall i, j | 0 <= i < j < |bundles| :: bundles[i].name != bundles[j].name
    requires b in bundles && c in bundles
    ensures b.name == c.name ==> b == c
  {
    var i :| 0 <= i < |bundles| && bundles[i] == b;
    var j :| 0 <= j < |bundles| && bundles[j] == c;
  }

  lemma DataWriteAlone(chart: seq<Node>, bundles: seq<Bundle>, repoUrl: string, dir: Path, list: seq<Override>,
                       b: Bundle, v: Write)
    requires NamesFit(chart, bundles) && b in bundles && v in Generated(chart, bundles, repoUrl, dir, list)
    requires dir + ["workload", b.name] <= v.path
    ensures IsStatic(b) && v == DataWrite(b, dir)
  {
    var q := dir + ["workload", b.name];
    assert v.path[|dir|] == q[|dir|] == "workload" && v.path[|dir| + 1] == q[|dir| + 1] == b.name;
    NonemptyPaths(chart);
    if v in ChartWrites([], Files(chart), dir + ["mgmt"]) {
      ChartInMgmt(Files(chart), dir, v);
    } else {
      BundleWritesHas(bundles, repoUrl, dir, list, v);
      var c :| c in bundles && (v == AppWrite(c, repoUrl, dir, list) || (IsStatic(c) && v == DataWrite(c, dir)));
      AppInMgmt(c, repoUrl, dir, list);
      if IsStatic(c) {
        DataInWorkload(c, dir);
      }
      SameBundle(bundles, b, c);
    }
  }

  lemma ManifestMade(chart: seq<Node>, bundles: seq<Bundle>, repoUrl: string, dir: Path, list: seq<Override>, b: Bundle)
    requires NamesFit(chart, bundles) && b in bundles
    ensures var made, app := WriteAll(map[], Generated(chart, bundles, repoUrl, dir, list)),
        AppWrite(b, repoUrl, dir, list);
            app.path in made && made[app.path] == app.content
  {
    var writes := Generated(chart, bundles, repoUrl, dir, list);
    var app := AppWrite(b, repoUrl, dir, list);
    BundleWritesHas(bundles, repoUrl, dir, list, app);
    forall v | v in writes && v.path == app.path ensures v == app {
      AppWriteAlone(chart, bundles, repoUrl, dir, list, b, v);
    }
    UnanimousWrite(writes, app);
  }

  lemma HomeMade(chart: seq<Node>, bundles: seq<Bundle>, repoUrl: string, dir: Path, list: seq<Override>,
                 b: Bundle, p: Path)
    requires NamesFit(chart, bundles) && b in bundles && dir + ["workload", b.name] <= p
    ensures var made := WriteAll(map[], Generated(chart, bundles, repoUrl, dir, list));
            && (p in made <==> IsStatic(b) && p == DataWrite(b, dir).path)
            && (p in made ==> made[p] == BundleData(b.data.value))
  {
    var writes := Generated(chart, bundles, repoUrl, dir, list);
    WrittenPaths(writes, p);
    forall v | v in writes && v.path == p ensures IsStatic(b) && v == DataWrite(b, dir) {
      DataWriteAlone(chart, bundles, repoUrl, dir, list, b, v);
    }
    if IsStatic(b) && p == DataWrite(b, dir).path {
      BundleWritesHas(bundles, repoUrl, dir, list, DataWrite(b, dir));
      UnanimousWrite(writes, DataWrite(b, dir));
    }
  }

  /** Exact contents: with fitting names, every bundle's manifest is there with
      its own settings and overrides, and the directory a static bundle's
      manifest points to holds exactly that bundle's data. */
  lemma {:induction false} RegenerationIsExact(tree: Tree, chart: seq<Node>, bundles: seq<Bundle>, repoUrl: string,
      dir: Path, list: seq<Override>, b: Bundle)
    requires NamesFit(chart, bundles) && b in bundles
    ensures var r := Regenerated(tree, chart, bundles, repoUrl, dir, list);
            var manifest, home := dir + ["mgmt", "templates", FileName(b)], dir + ["workload", b.name];
            && manifest in r
            && r[manifest] == Manifest(Settings(b, CLUSTER_NAME, repoUrl, dir + ["workload"], GroupOf(list, b.name)))
            && Under(r, home) == if IsStatic(b) then map[home + [FileName(b)] := BundleData(b.data.value)] else map[]
  {
    var made := WriteAll(map[], Generated(chart, bundles, repoUrl, dir, list));
    WritesOverlay(Without(tree, dir), Generated(chart, bundles, repoUrl, dir, list));
    ManifestMade(chart, bundles, repoUrl, dir, list, b);
    var home := dir + ["workload", b.name];
    var r := Regenerated(tree, chart, bundles, repoUrl, dir, list);
    assert home + [FileName(b)] == dir + ["workload", b.name, FileName(b)];
    forall p | home <= p
      ensures p in r <==> IsStatic(b) && p == home + [FileName(b)]
      ensures p in r ==> r[p] == BundleData(b.data.value)
    {
      assert dir <= home <= p;
      HomeMade(chart, bundles, repoUrl, dir, list, b, p);
    }
  }

  /** Where manifests point, in plain terms. The application of a static bundle
      deploys, from the profile's repository, a directory that holds exactly
      the bundle's data; that of a dynamic bundle deploys the bundle's own
      repository and path, with its own source type. */
  lemma {:induction false} ManifestsPointHome(tree: Tree, chart: seq<Node>, bundles: seq<Bundle>, repoUrl: string,
      dir: Path, list: seq<Override>, b: Bundle)
    requires NamesFit(chart, bundles) && b in bundles
    ensures var r := Regenerated(tree, chart, bundles, repoUrl, dir, list);
            var path := dir + ["mgmt", "templates", b.name + ".yaml"];
            && path in r && r[path].Manifest?
            && var app := r[path].app;
            && app.appName == "{{ .Values.clusterName }}-" + b.name && app.clusterName == "{{ .Values.clusterName }}"
            && (b.repoRevision != "" ==> app.repoRevision == b.repoRevision)
            && (b.repoRevision == "" ==> app.repoRevision == "HEAD")
            && match b.data
               case Some(data) =>
                 && app.source.Workload? && app.source.repoUrl == repoUrl && app.overrides == [] && app.srcType == ""
                 && Under(r, app.source.dir) == map[app.source.dir + [b.name + ".yaml"] := BundleData(data)]
               case None =>
                 && app.source == Remote(b.repoUrl, b.repoPath) && app.srcType == b.srcType
                 && app.overrides == GroupOf(list, b.name)
  {
    RegenerationIsExact(tree, chart, bundles, repoUrl, dir, list, b);
    assert CLUSTER_NAME + "-" + b.name == "{{ .Values.clusterName }}-" + b.name;
    assert dir + ["workload"] + [b.name] == dir + ["workload", b.name];
    hide Regenerated, Under, GroupOf;
  }

  /** The files of the embedded chart arrive as they are, one directory level
      higher, wherever nothing else is written to the same place. */
  lemma {:induction false} ChartArrives(tree: Tree, chart: seq<Node>, bundles: seq<Bundle>, repoUrl: string, dir: Path,
                     list: seq<Override>, path: Path, data: string)
    requires path != [] && Resolves(chart, path, data)
    requires forall p, d | Resolves(chart, p, d) && p != [] && p[1..] == path[1..] :: d == data
    requires forall b | b in bundles :: path[1..] != ["templates", b.name + ".yaml"]
    ensures var r, target := Regenerated(tree, chart, bundles, repoUrl, dir, list), dir + ["mgmt"] + path[1..];
            target in r && r[target] == Embedded(data)
  {
    var writes, files := Generated(chart, bundles, repoUrl, dir, list), Files(chart);
    var w := Write(dir + ["mgmt"] + path[1..], Embedded(data));
    FilesExact(chart, path, data);
    NonemptyPaths(chart);
    var i :| 0 <= i < |files| && files[i] == (path, data);
    var chartWrites := ChartWrites([], files, dir + ["mgmt"]);
    assert [] + path == path && chartWrites[i] == w && w in chartWrites;
    forall v | v in writes && v.path == w.path ensures v == w {
      ChartWriteAlone(chart, bundles, repoUrl, dir, list, path, data, v);
    }
    UnanimousWrite(writes, w);
    WritesOverlay(Without(tree, dir), writes);
  }

  lemma {:induction false} ChartWriteAlone(chart: seq<Node>, bundles: seq<Bundle>, repoUrl: string, dir: Path,
      list: seq<Override>, path: Path, data: string, v: Write)
    requires path != [] && v in Generated(chart, bundles, repoUrl, dir, list)
    requires forall p, d | Resolves(chart, p, d) && p != [] && p[1..] == path[1..] :: d == data
    requires forall b | b in bundles :: path[1..] != ["templates", b.name + ".yaml"]
    requires v.path == dir + ["mgmt"] + path[1..]
    ensures v == Write(dir + ["mgmt"] + path[1..], Embedded(data))
  {
    NonemptyPaths(chart);
    var files := Files(chart);
    var chartWrites := ChartWrites([], files, dir + ["mgmt"]);
    var tail := v.path[|dir| + 1..];
    assert tail == path[1..] && v.path[|dir|] == "mgmt";
    if v in chartWrites {
      var i :| 0 <= i < |files| && chartWrites[i] == v;
      assert [] + files[i].0 == files[i].0 && files[i] in files;
      assert tail == (dir + ["mgmt"] + files[i].0[1..])[|dir| + 1..] == files[i].0[1..];
      FilesExact(chart, files[i].0, files[i].1);
    } else {
      BundleWritesHas(bundles, repoUrl, dir, list, v);
      var b :| b in bundles && (v == AppWrite(b, repoUrl, dir, list) || (IsStatic(b) && v == DataWrite(b, dir)));
      BundleTails(b, repoUrl, dir, list);
      if IsStatic(b) {
        DataInWorkload(b, dir);
      }
    }
  }

  lemma BundleTails(b: Bundle, repoUrl: string, dir: Path, list: seq<Override>)
    ensures AppWrite(b, repoUrl, dir, list).path[|dir| + 1..] == ["templates", b.name + ".yaml"]
  {
  }

  /** Regenerating again, say after a push that was wrongly reported as failed,
      changes nothing. */
  lemma RegenerationIsIdempotent(tree: Tree, chart: seq<Node>, bundles: seq<Bundle>, repoUrl: string,
                                 dir: Path, list: seq<Override>)
    ensures var r := Regenerated(tree, chart, bundles, repoUrl, dir, list);
            Regenerated(r, chart, bundles, repoUrl, dir, list) == r
  {
    RegenerationIsClean(tree, tree, chart, bundles, repoUrl, dir, list);
  }

  const CLUSTER_NAME_PARAMETER := "arlon.clusterName"

  /** The Helm parameters that the application template renders: none unless
      the source is a Helm chart, and then the cluster name before the overrides. */
  function HelmParameters(app: AppSettings): seq<KVPair> {
    if app.srcType == "helm" then [KVPair(CLUSTER_NAME_PARAMETER, app.clusterName)] + app.overrides else []
  }

  predicate KeysOnce(params: seq<KVPair>) {
    forall i, j | 0 <= i < j < |params| :: params[i].key != params[j].key
  }

  lemma PrependKey(kv: KVPair, rest: seq<KVPair>)
    requires KeysOnce(rest)
    ensures KeysOnce([kv] + rest) <==> forall p | p in rest :: p.key != kv.key
  {
    var all := [kv] + rest;
    if p :| p in rest && p.key == kv.key {
      var i :| 0 <= i < |rest| && rest[i] == p;
      assert all[0].key == all[i + 1].key;
    }
    if forall p | p in rest :: p.key != kv.key {
      forall i, j | 0 <= i < j < |all| ensures all[i].key != all[j].key {
        assert all[j] == rest[j - 1] && (i > 0 ==> all[i] == rest[i - 1]);
      }
    }
  }

  /** An update reaches the manifests: after overrides were upserted and the
      profile regenerated, the manifest of a Helm bundle renders the cluster
      name, each override of this bundle with its latest value, and nothing of
      any other bundle - every name once, exactly when no override of this
      bundle is itself called arlon.clusterName. Other dynamic bundles render
      no parameter at all. */
  lemma {:induction false} UpdateReachesManifest(tree: Tree, chart: seq<Node>, bundles: seq<Bundle>, repoUrl: string,
      dir: Path, list: seq<Override>, news: seq<Override>, b: Bundle)
    requires Distinct(Slots(list)) && NamesFit(chart, bundles) && b in bundles && !IsStatic(b)
    ensures var r := Regenerated(tree, chart, bundles, repoUrl, dir, Upsert(list, news));
            var path := dir + ["mgmt", "templates", b.name + ".yaml"];
            && path in r && r[path].Manifest?
            && var params := HelmParameters(r[path].app);
            && (b.srcType != "helm" ==> params == [])
            && (b.srcType == "helm" ==>
                  && params != [] && params[0] == KVPair("arlon.clusterName", "{{ .Values.clusterName }}")
                  && (forall kv :: kv in params[1..] <==> LastOf(list + news, Override(b.name, kv.key, kv.value)))
                  && (KeysOnce(params) <==>
                        forall v :: !LastOf(list + news, Override(b.name, "arlon.clusterName", v))))
  {
    var all := Upsert(list, news);
    var group := GroupOf(all, b.name);
    RegenerationIsExact(tree, chart, bundles, repoUrl, dir, all, b);
    RenderedLatest(list, news, b.name);
    PrependKey(KVPair(CLUSTER_NAME_PARAMETER, CLUSTER_NAME), group);
    forall kv ensures kv in group <==> LastOf(list + news, Override(b.name, kv.key, kv.value)) {
      GroupHas(all, b.name, kv);
      UpsertMeans(list, news, Override(b.name, kv.key, kv.value));
    }
    hide Regenerated, Upsert, GroupOf, LastOf, Updated;
    if v :| LastOf(list + news, Override(b.name, CLUSTER_NAME_PARAMETER, v)) {
      assert KVPair(CLUSTER_NAME_PARAMETER, v) in group;
    }
  }

  /** The failing input: one override of a Helm bundle with the reserved key is
      rendered beside the cluster name, under the same name. */
  lemma ReservedKeyIsRenderedTwice()
    ensures var b := Bundle("autoscaler", None, "https://charts", "cas", "", "helm");
            var news := [Override("autoscaler", "arlon.clusterName", "mine")];
            var app := AppWrite(b, "https://profiles", ["p"], Upsert([], news)).content.app;
            HelmParameters(app) == [KVPair("arlon.clusterName", CLUSTER_NAME), KVPair("arlon.clusterName", "mine")]
  {
    var o := Override("autoscaler", "arlon.clusterName", "mine");
    assert Upsert([], [o]) == [o] by {
      assert Upsert([], [o]) == Upsert(UpsertOne([], o), []);
    }
    assert GroupOf([o], "autoscaler") == [KVPair(o.key, o.value)] by {
      assert [o][..0] == [] && GroupOf([], "autoscaler") == [];
    }
    hide Upsert, GroupOf;
  }

  // ------------------------------------------------------------ the worktree

  lemma {:induction false} FilesConcat(a: seq<Node>, b: seq<Node>)
    ensures Files(a + b) == Files(a) + Files(b)
    decreases |a|
  {
    if a == [] {
      assert a + b == b;
    } else {
      assert (a + b)[1..] == a[1..] + b;
      FilesConcat(a[1..], b);
    }
  }

  lemma {:induction false} ChartWritesInDir(root: Path, name: string, children: seq<Node>, mgmtPath: Path)
    ensures ChartWrites(root, FilesOf(Dir(name, children)), mgmtPath)
      == ChartWrites(root + [name], Files(children), mgmtPath)
  {
    var files := Files(children);
    forall i | 0 <= i < |files|
      ensures root + Prefixed(name, files)[i].0 == root + [name] + files[i].0
    {
    }
  }

  lemma {:induction false} CopyStep(files: Tree, root: Path, items: seq<Node>, i: nat, mgmtPath: Path)
    requires i < |items|
    ensures WriteAll(files, ChartWrites(root, Files(items[..i + 1]), mgmtPath))
         == WriteAll(WriteAll(files, ChartWrites(root, Files(items[..i]), mgmtPath)),
                     ChartWrites(root, FilesOf(items[i]), mgmtPath))
  {
    assert items[..i + 1] == items[..i] + [items[i]];
    FilesConcat(items[..i], [items[i]]);
    assert Files([items[i]]) == FilesOf(items[i]) + Files([]);
    var upTo := ChartWrites(root, Files(items[..i]), mgmtPath);
    var more := ChartWrites(root, FilesOf(items[i]), mgmtPath);
    WriteAllAppend(files, upTo, more);
    assert ChartWrites(root, Files(items[..i + 1]), mgmtPath) == upTo + more;
  }

  lemma {:induction false} OneWrite(files: Tree, w: Write)
    ensures WriteAll(files, [w]) == files[w.path := w.content]
  {
    assert WriteAll(files, [w]) == WriteAll(files[w.path := w.content], []);
  }

  /** A clash met on the way is a clash of the whole. */
  lemma {:induction false} CopyClash(files: Tree, root: Path, items: seq<Node>, i: nat, mgmtPath: Path)
    requires i < |items|
    ensures NoClash(files, ChartWrites(root, Files(items), mgmtPath)) ==>
              NoClash(WriteAll(files, ChartWrites(root, Files(items[..i]), mgmtPath)),
                      ChartWrites(root, FilesOf(items[i]), mgmtPath))
  {
    var rest := items[i + 1..];
    assert items == items[..i] + ([items[i]] + rest);
    FilesConcat(items[..i], [items[i]] + rest);
    FilesConcat([items[i]], rest);
    assert Files([items[i]]) == FilesOf(items[i]) + Files([]);
    var upTo := ChartWrites(root, Files(items[..i]), mgmtPath);
    var more := ChartWrites(root, FilesOf(items[i]), mgmtPath);
    var last := ChartWrites(root, Files(rest), mgmtPath);
    assert ChartWrites(root, Files(items), mgmtPath) == upTo + more + last;
    NoClashMiddle(files, upTo, more, last);
  }

  lemma {:induction false} StaticWrites(files: Tree, b: Bundle, repoUrl: string, dir: Path, list: seq<Override>)
    requires IsStatic(b)
    ensures var first, last := DataWrite(b, dir), AppWrite(b, repoUrl, dir, list);
            var middle := files[first.path := first.content];
            && WriteAll(files, WritesOf(b, repoUrl, dir, list)) == WriteAll(middle, [last])
            && (NoClash(files, WritesOf(b, repoUrl, dir, list)) ==>
                  CanCreate(files, first.path) && NoClash(middle, [last]))
  {
    var first, last := DataWrite(b, dir), AppWrite(b, repoUrl, dir, list);
    WriteAllAppend(files, [first], [last]);
    OneWrite(files, first);
    CanCreateIsNoClash(files, first);
    if NoClash(files, [first] + [last]) {
      NoClashSplits(files, [first], [last]);
    }
  }

  lemma {:induction false} BundleWritesSplit(a: seq<Bundle>, b: seq<Bundle>, repoUrl: string, dir: Path,
                                             list: seq<Override>)
    ensures BundleWrites(a + b, repoUrl, dir, list)
         == BundleWrites(a, repoUrl, dir, list) + BundleWrites(b, repoUrl, dir, list)
    decreases |b|
  {
    if b == [] {
      assert a + b == a;
    } else {
      assert (a + b)[..|a + b| - 1] == a + b[..|b| - 1];
      BundleWritesSplit(a, b[..|b| - 1], repoUrl, dir, list);
    }
  }

  lemma {:induction false} BundleWritesLast(bundles: seq<Bundle>, i: nat, repoUrl: string, dir: Path,
      list: seq<Override>)
    requires i < |bundles|
    ensures BundleWrites(bundles[..i + 1], repoUrl, dir, list)
         == BundleWrites(bundles[..i], repoUrl, dir, list) + WritesOf(bundles[i], repoUrl, dir, list)
  {
    hide WritesOf;
    assert bundles[..i + 1][..i] == bundles[..i];
  }

  lemma {:induction false} BundleStep(files: Tree, bundles: seq<Bundle>, i: nat, repoUrl: string, dir: Path,
      list: seq<Override>)
    requires i < |bundles|
    ensures var before := WriteAll(files, BundleWrites(bundles[..i], repoUrl, dir, list));
            var more := WritesOf(bundles[i], repoUrl, dir, list);
            && WriteAll(files, BundleWrites(bundles[..i + 1], repoUrl, dir, list)) == WriteAll(before, more)
            && (NoClash(files, BundleWrites(bundles, repoUrl, dir, list)) ==> NoClash(before, more))
  {
    var upTo := BundleWrites(bundles[..i], repoUrl, dir, list);
    var more := WritesOf(bundles[i], repoUrl, dir, list);
    var last := BundleWrites(bundles[i + 1..], repoUrl, dir, list);
    hide BundleWrites, WritesOf, NoClash, WriteAll;
    BundleWritesLast(bundles, i, repoUrl, dir, list);
    assert bundles == bundles[..i + 1] + bundles[i + 1..];
    BundleWritesSplit(bundles[..i + 1], bundles[i + 1..], repoUrl, dir, list);
    var all := BundleWrites(bundles, repoUrl, dir, list);
    WriteAllAppend(files, upTo, more);
    NoClashMiddle(files, upTo, more, last);
  }

  class Worktree {
    var files: Tree
    var operations: nat
    const disk: nat -> bool

    constructor (files: Tree, disk: nat -> bool)
      ensures this.files == files && this.disk == disk
    {
      this.files, operations, this.disk := files, 0, disk;
    }

    /** The last file operation was one that fails. */
    ghost predicate LastFailed()
      reads this
    {
      operations > 0 && !disk(operations - 1)
    }

    /** Creating a file fails when the disk does, or when the path runs through
        another file or names a directory. */
    method Create(path: Path, content: Content) returns (ok: bool)
      modifies this
      ensures files == if ok then old(files)[path := content] else old(files)
      ensures operations == old(operations) + 1
      ensures ok <==> disk(old(operations)) && CanCreate(old(files), path)
      ensures old(Consistent(files)) ==> Consistent(files)
    {
      ok := disk(operations) && CanCreate(files, path);
      operations := operations + 1;
      if ok {
        files := files[path := content];
      }
    }

    /** Walks the embedded tree below `root` and copies every file. */
    method CopyManifests(root: Path, items: seq<Node>, mgmtPath: Path) returns (ok: bool)
      modifies this
      ensures ok ==> files == WriteAll(old(files), ChartWrites(root, Files(items), mgmtPath))
      ensures !ok && !LastFailed() ==> !NoClash(old(files), ChartWrites(root, Files(items), mgmtPath))
      ensures operations >= old(operations) && (!ok ==> operations > old(operations))
      ensures old(Consistent(files)) ==> Consistent(files)
      decreases items
    {
      hide Consistent, NoClash;
      for i := 0 to |items|
        invariant operations >= old(operations)
        invariant files == WriteAll(old(files), ChartWrites(root, Files(items[..i]), mgmtPath))
        invariant old(Consistent(files)) ==> Consistent(files)
      {
        var item := items[i];
        CopyStep(old(files), root, items, i, mgmtPath);
        CopyClash(old(files), root, items, i, mgmtPath);
        var filePath := root + [item.name];
        if item.Dir? {
          ChartWritesInDir(root, item.name, item.children, mgmtPath);
          ok := CopyManifests(filePath, item.children, mgmtPath);
        } else {
          // drop the first component ("manifests")
          var dstPath := mgmtPath + filePath[1..];
          OneWrite(files, Write(dstPath, Embedded(item.data)));
          assert ChartWrites(root, FilesOf(item), mgmtPath) == [Write(dstPath, Embedded(item.data))];
          CanCreateIsNoClash(files, Write(dstPath, Embedded(item.data)));
          ok := Create(dstPath, Embedded(item.data));
        }
        if !ok {
          return;
        }
      }
      assert items[..|items|] == items;
      ok := true;
    }

    method ProcessBundle(b: Bundle, repoUrl: string, dir: Path, overrides: map<string, seq<KVPair>>,
                         ghost list: seq<Override>)
      returns (ok: bool)
      requires (if b.name in overrides then overrides[b.name] else []) == GroupOf(list, b.name)
      modifies this
      ensures ok ==> WellTyped(b) && files == WriteAll(old(files), WritesOf(b, repoUrl, dir, list))
      ensures operations >= old(operations)
      ensures !ok ==> || (operations > old(operations) && LastFailed())
                      || !WellTyped(b) || !NoClash(old(files), WritesOf(b, repoUrl, dir, list))
      ensures old(Consistent(files)) ==> Consistent(files)
    {
      hide Consistent, NoClash, GroupOf, CanCreate;
      var revision := if b.repoRevision == "" then "HEAD" else b.repoRevision;
      var app := AppSettings(CLUSTER_NAME + "-" + b.name, CLUSTER_NAME, Remote("", ""), revision, "", []);
      var last := AppWrite(b, repoUrl, dir, list);
      if b.data.None? {
        // dynamic bundle
        if b.repoUrl == "" {
          return false;
        }
        var group := if b.name in overrides then overrides[b.name] else [];
        app := app.(source := Remote(b.repoUrl, b.repoPath), srcType := b.srcType, overrides := group);
        assert WritesOf(b, repoUrl, dir, list) == [last];
      } else if b.repoUrl != "" {
        return false;
      } else {
        // static bundle
        StaticWrites(files, b, repoUrl, dir, list);
        ok := Create(dir + ["workload", b.name, b.name + ".yaml"], BundleData(b.data.value));
        if !ok {
          return;
        }
        app := app.(source := Workload(repoUrl, dir + ["workload"] + [b.name]));
      }
      OneWrite(files, last);
      CanCreateIsNoClash(files, last);
      ok := Create(dir + ["mgmt", "templates", b.name + ".yaml"], Manifest(app));
    }

    method ProcessBundles(bundles: seq<Bundle>, repoUrl: string, dir: Path, overrides: map<string, seq<KVPair>>,
                          ghost list: seq<Override>)
      returns (ok: bool)
      requires forall b :: (if b in overrides then overrides[b] else []) == GroupOf(list, b)
      modifies this
      ensures ok ==> forall b | b in bundles :: WellTyped(b)
      ensures ok ==> files == WriteAll(old(files), BundleWrites(bundles, repoUrl, dir, list))
      ensures operations >= old(operations)
      ensures !ok ==> || (operations > old(operations) && LastFailed())
                      || (exists b :: b in bundles && !WellTyped(b))
                      || !NoClash(old(files), BundleWrites(bundles, repoUrl, dir, list))
      ensures old(Consistent(files)) ==> Consistent(files)
    {
      hide Consistent, GroupOf, WellTyped, NoClash, WritesOf;
      for i := 0 to |bundles|
        invariant operations >= old(operations)
        invariant forall b | b in bundles[..i] :: WellTyped(b)
        invariant files == WriteAll(old(files), BundleWrites(bundles[..i], repoUrl, dir, list))
        invariant old(Consistent(files)) ==> Consistent(files)
      {
        var b := bundles[i];
        BundleStep(old(files), bundles, i, repoUrl, dir, list);
        assert bundles[..i + 1] == bundles[..i] + [b];
        hide WriteAll, BundleWrites;
        ok := ProcessBundle(b, repoUrl, dir, overrides, list);
        if !ok {
          assert b in bundles;
          return;
        }
      }
      assert bundles[..|bundles|] == bundles;
      ok := true;
    }

    /** Removes a directory recursively. */
    method Remove(dir: Path) returns (ok: bool)
      modifies this
      ensures files == if ok then Without(old(files), dir) else old(files)
      ensures operations == old(operations) + 1 && (ok <==> disk(old(operations)))
      ensures old(Consistent(files)) ==> Consistent(files)
    {
      ok := disk(operations);
      operations := operations + 1;
      if ok {
        files := Without(files, dir);
      }
    }
  }

  /** A remote repository branch. */
  class GitRemote {
    var tree: Tree

    constructor (tree: Tree)
      ensures this.tree == tree
    {
      this.tree := tree;
    }
  }

  /** What generating into a clone needs besides working calls: nothing but a
      directory in the profile's place, well-typed bundles, and no clash. */
  ghost predicate Generatable(tree: Tree, chart: seq<Node>, bundles: seq<Bundle>, repoUrl: string, dir: Path,
                              list: seq<Override>) {
    && dir !in tree && (forall b | b in bundles :: WellTyped(b))
    && NoClash(Without(tree, dir), Generated(chart, bundles, repoUrl, dir, list))
  }

  /** The steps before the commit: success leaves the regenerated tree. */
  method Generate(wt: Worktree, chart: seq<Node>, bundles: seq<Bundle>, repoUrl: string, dir: Path, list: seq<Override>)
    returns (ok: bool)
    modifies wt
    ensures ok ==> wt.files == Regenerated(old(wt.files), chart, bundles, repoUrl, dir, list)
    ensures ok ==> dir !in old(wt.files) && forall b | b in bundles :: WellTyped(b)
    ensures !ok ==> (wt.operations > old(wt.operations) && wt.LastFailed())
                    || !Generatable(old(wt.files), chart, bundles, repoUrl, dir, list)
    ensures old(Consistent(wt.files)) ==> Consistent(wt.files)
  {
    hide Consistent, NoClash;
    ok := false;
    if dir in wt.files {
      return;
    }
    if exists p :: p in wt.files && dir < p {
      ok := wt.Remove(dir);
      if !ok {
        return;
      }
    }
    assert wt.files == Without(old(wt.files), dir) by {
      assert forall p | p in old(wt.files) && dir <= p :: dir < p || p == dir;
    }
    ghost var bare := wt.files;
    ghost var chartWrites := ChartWrites([], Files(chart), dir + ["mgmt"]);
    GenerationSplits(bare, chart, bundles, repoUrl, dir, list);
    ok := wt.CopyManifests([], chart, dir + ["mgmt"]);
    if !ok {
      return;
    }
    var om := MakeOverridesMap(list);
    ok := wt.ProcessBundles(bundles, repoUrl, dir, om, list);
  }

  lemma {:induction false} GenerationSplits(bare: Tree, chart: seq<Node>, bundles: seq<Bundle>, repoUrl: string,
      dir: Path, list: seq<Override>)
    ensures var chartWrites := ChartWrites([], Files(chart), dir + ["mgmt"]);
            var bundleWrites := BundleWrites(bundles, repoUrl, dir, list);
            && WriteAll(bare, Generated(chart, bundles, repoUrl, dir, list))
               == WriteAll(WriteAll(bare, chartWrites), bundleWrites)
            && (NoClash(bare, Generated(chart, bundles, repoUrl, dir, list)) ==>
                  NoClash(bare, chartWrites) && NoClash(WriteAll(bare, chartWrites), bundleWrites))
  {
    var chartWrites := ChartWrites([], Files(chart), dir + ["mgmt"]);
    var bundleWrites := BundleWrites(bundles, repoUrl, dir, list);
    WriteAllAppend(bare, chartWrites, bundleWrites);
    if NoClash(bare, chartWrites + bundleWrites) {
      NoClashSplits(bare, chartWrites, bundleWrites);
    }
  }

  /** All or nothing: either the branch holds the regenerated tree, or it is
      untouched - unless the push itself succeeded and was reported as failed.
      With a working disk it succeeds exactly when the clone, the commit and a
      needed push do and the profile can be generated. */
  method CreateInGit(remote: GitRemote, cloned: bool, disk: nat -> bool, committed: bool, push: Fault,
                     chart: seq<Node>, bundles: seq<Bundle>, repoUrl: string, dir: Path, list: seq<Override>)
    returns (ok: bool)
    modifies remote
    ensures ok ==> remote.tree == Regenerated(old(remote.tree), chart, bundles, repoUrl, dir, list)
    // every bundle is static, with data, or dynamic, with a repository, and not both
    ensures ok ==> forall b | b in bundles :: b.data.Some? <==> b.repoUrl == ""
    ensures !ok ==>
              || remote.tree == old(remote.tree)
              || (push == Late && remote.tree == Regenerated(old(remote.tree), chart, bundles, repoUrl, dir, list))
    ensures dir in old(remote.tree) || (exists b :: b in bundles && !WellTyped(b)) ==>
              !ok && remote.tree == old(remote.tree)
    ensures (forall k: nat :: disk(k)) && old(Consistent(remote.tree)) ==>
              (ok <==>
                && cloned && Generatable(old(remote.tree), chart, bundles, repoUrl, dir, list) && committed
                && (|| push == Fine
                    || Regenerated(old(remote.tree), chart, bundles, repoUrl, dir, list) == old(remote.tree)))
    ensures old(Consistent(remote.tree)) ==> Consistent(remote.tree)
  {
    hide Consistent, NoClash, Generated;
    ok := false;
    if !cloned {
      return;
    }
    var wt := new Worktree(remote.tree, disk);
    ok := Generate(wt, chart, bundles, repoUrl, dir, list);
    if !ok {
      return;
    }
    if Consistent(wt.files) {
      ConsistentMeansNoClash(Without(remote.tree, dir), Generated(chart, bundles, repoUrl, dir, list));
    }
    if !committed {
      return false;
    }
    if wt.files == remote.tree {
      // no changed files, nothing to push
      return;
    }
    if push != Lost {
      remote.tree := wt.files;
    }
    ok := push == Fine;
  }

  /** A chart that leaves room for the bundles: none of its files stands where
      another file's directory or a bundle's manifest has to be, or the reverse. */
  ghost predicate ChartFits(chart: seq<Node>, bundles: seq<Bundle>) {
    && (forall f, g | f in Files(chart) && g in Files(chart) :: f.0 != [] && g.0 != [] && !(f.0[1..] < g.0[1..]))
    && (forall f, b | f in Files(chart) && b in bundles ::
          && f.0 != [] && !(f.0[1..] < ["templates", FileName(b)]) && !(["templates", FileName(b)] < f.0[1..]))
  }

  /** Well-typed bundles and a fitting chart can be generated wherever no file
      stands in the way of the profile's directory. */
  lemma FittingIsGeneratable(tree: Tree, chart: seq<Node>, bundles: seq<Bundle>, repoUrl: string, dir: Path,
                             list: seq<Override>)
    requires ChartFits(chart, bundles) && forall b | b in bundles :: WellTyped(b)
    requires forall q | q in tree :: !(q <= dir)
    ensures Generatable(tree, chart, bundles, repoUrl, dir, list)
  {
    var writes := Generated(chart, bundles, repoUrl, dir, list);
    forall q, w | q in Without(tree, dir) && w in writes ensures !(q < w.path) && !(w.path < q) {
      GeneratedUnder(chart, bundles, repoUrl, dir, list, w);
      PrefixesCompare(q, dir, w.path);
    }
    forall v, w | v in writes && w in writes ensures !(v.path < w.path) {
      WritesDoNotNest(chart, bundles, repoUrl, dir, list, v, w);
    }
  }

  lemma PrefixesCompare(q: Path, dir: Path, p: Path)
    requires dir <= p
    ensures q < p ==> q <= dir || dir <= q
    ensures p < q ==> dir <= q
  {
  }

  /** What a generated path can be below the management directory ... */
  ghost predicate InMgmt(chart: seq<Node>, bundles: seq<Bundle>, tail: Path) {
    || (exists f :: f in Files(chart) && f.0 != [] && tail == f.0[1..])
    || (exists b :: b in bundles && tail == ["templates", FileName(b)])
  }

  /** ... and below the profile's directory. */
  ghost predicate Below(chart: seq<Node>, bundles: seq<Bundle>, tail: Path) {
    tail != [] && if tail[0] == "mgmt" then InMgmt(chart, bundles, tail[1..]) else |tail| == 3 && tail[0] == "workload"
  }

  lemma GeneratedBelow(chart: seq<Node>, bundles: seq<Bundle>, repoUrl: string, dir: Path, list: seq<Override>,
                       w: Write)
    requires w in Generated(chart, bundles, repoUrl, dir, list)
    ensures dir <= w.path && Below(chart, bundles, w.path[|dir|..])
  {
    GeneratedUnder(chart, bundles, repoUrl, dir, list, w);
    NonemptyPaths(chart);
    var tail := w.path[|dir|..];
    if w in ChartWrites([], Files(chart), dir + ["mgmt"]) {
      ChartInMgmt(Files(chart), dir, w);
      var f :| f in Files(chart) && w.path == dir + ["mgmt"] + f.0[1..];
      assert tail == ["mgmt"] + f.0[1..] && tail[1..] == f.0[1..];
    } else {
      BundleWritesHas(bundles, repoUrl, dir, list, w);
      var b :| b in bundles && (w == AppWrite(b, repoUrl, dir, list) || (IsStatic(b) && w == DataWrite(b, dir)));
      if w == AppWrite(b, repoUrl, dir, list) {
        assert tail == ["mgmt", "templates", FileName(b)] && tail[1..] == ["templates", FileName(b)];
      } else {
        assert tail == ["workload", b.name, FileName(b)];
      }
    }
  }

  lemma MgmtDoesNotNest(chart: seq<Node>, bundles: seq<Bundle>, u: Path, v: Path)
    requires ChartFits(chart, bundles) && InMgmt(chart, bundles, u) && InMgmt(chart, bundles, v)
    ensures !(u < v)
  {
    if f :| f in Files(chart) && f.0 != [] && u == f.0[1..] {
      if g :| g in Files(chart) && g.0 != [] && v == g.0[1..] {
      }
    }
  }

  lemma PrefixTails(p: Path, q: Path, n: nat)
    requires n <= |p| && n <= |q|
    ensures p < q ==> p[..n] == q[..n] && p[n..] < q[n..]
  {
  }

  lemma WritesDoNotNest(chart: seq<Node>, bundles: seq<Bundle>, repoUrl: string, dir: Path, list: seq<Override>,
                        v: Write, w: Write)
    requires ChartFits(chart, bundles)
    requires v in Generated(chart, bundles, repoUrl, dir, list) && w in Generated(chart, bundles, repoUrl, dir, list)
    ensures !(v.path < w.path)
  {
    GeneratedBelow(chart, bundles, repoUrl, dir, list, v);
    GeneratedBelow(chart, bundles, repoUrl, dir, list, w);
    var s, t := v.path[|dir|..], w.path[|dir|..];
    PrefixTails(v.path, w.path, |dir|);
    PrefixTails(s, t, 1);
    if s[0] == "mgmt" && t[0] == "mgmt" {
      MgmtDoesNotNest(chart, bundles, s[1..], t[1..]);
    }
    assert s[..1] == [s[0]] && t[..1] == [t[0]];
  }
}
