/** The objects that the global AppProfile reconciler (pkg/appprofile) reads
    and writes, and what a pass is for, stated as relations between them. No
    definition here follows the loops of the reconciler. */
module AppProfileSpec {
  import opened Wrappers
  import opened Text

  const PROFILES_KEY := "arlon.io/profiles"
  const CLUSTER_NAME := "cluster_name"
  const CLUSTER_SERVER := "cluster_server"

  /** ArgoCD identifies a cluster by its server: names may repeat. */
  datatype ArgoCluster = ArgoCluster(name: string, server: string, annotations: Annotations)

  /** An ArgoCD application that stands for a gen2 Arlon cluster. */
  datatype ClusterApp = ClusterApp(name: string, annotations: Annotations)

  datatype JsonValue = JString(s: string) | JOther

  /** One raw element of a list generator. */
  datatype Element = Malformed | Object(fields: map<string, JsonValue>)

  datatype Generator = ListGenerator(elements: seq<Element>) | OtherGenerator

  datatype AppSet = AppSet(name: string, generators: seq<Generator>)

  datatype AppProfile = AppProfile(ns: string, name: string, appNames: seq<string>,
                                   invalidAppNames: seq<string>, health: string)

  datatype Snapshot = Snapshot(clusters: seq<ArgoCluster>, clusterApps: seq<ClusterApp>,
                               appSets: seq<AppSet>, profiles: seq<AppProfile>)

  // ------------------------------------------------------------ clusters

  /** arlonClusterMap: the last application of a given name wins. */
  function ArlonIndex(apps: seq<ClusterApp>): (arlon: map<string, ClusterApp>)
    ensures forall n | n in arlon :: arlon[n].name == n
  {
    if apps == [] then map[]
    else
      var last := apps[|apps| - 1];
      ArlonIndex(apps[..|apps| - 1])[last.name := last]
  }

  /** The annotation that decides for a cluster: the Arlon application's if
      there is one, otherwise the cluster's own. */
  function Effective(c: ArgoCluster, arlon: map<string, ClusterApp>): string {
    Lookup(if c.name in arlon then arlon[c.name].annotations else c.annotations, PROFILES_KEY)
  }

  /** The profiles an annotation value lists. */
  function Listed(annotation: string): seq<string> {
    StringListFromCommaSeparated(annotation)
  }

  predicate ClusterSynced(c: ArgoCluster, arlon: map<string, ClusterApp>) {
    Lookup(c.annotations, PROFILES_KEY) == Effective(c, arlon)
  }

  /** The cluster after its annotation was set, or removed when empty. */
  function SyncCluster(c: ArgoCluster, annotation: string): ArgoCluster {
    var entries := if c.annotations.Some? then c.annotations.value else map[];
    c.(annotations := Some(
      if annotation != "" then entries[PROFILES_KEY := annotation] else entries - {PROFILES_KEY}))
  }

  ghost predicate ClusterStep(c: ArgoCluster, c': ArgoCluster, arlon: map<string, ClusterApp>) {
    c' == c || (!ClusterSynced(c, arlon) && c' == SyncCluster(c, Effective(c, arlon)))
  }

  /** The clusters whose effective annotation lists the profile. */
  function UsersOf(profile: string, clusters: seq<ArgoCluster>, arlon: map<string, ClusterApp>): set<string> {
    set c | c in clusters && profile in Listed(Effective(c, arlon)) :: c.name
  }

  /** clustNameToServer: the last registered server of that name. */
  function ServerOf(name: string, clusters: seq<ArgoCluster>): string {
    if clusters == [] then ""
    else
      var last := clusters[|clusters| - 1];
      if last.name == name then last.server else ServerOf(name, clusters[..|clusters| - 1])
  }

  // ------------------------------------------------------------ profiles

  function ValidNames(appSets: seq<AppSet>): set<string> {
    set a | a in appSets :: a.name
  }

  function InvalidOf(p: AppProfile, valid: set<string>): set<string> {
    set n | n in p.appNames && n !in valid
  }

  function HealthFor(invalid: set<string>): string {
    if invalid != {} then "degraded" else "healthy"
  }

  predicate ProfileSynced(p: AppProfile, valid: set<string>) {
    Items(p.invalidAppNames) == InvalidOf(p, valid) && p.health == HealthFor(InvalidOf(p, valid))
  }

  /** A status update: the invalid list is kept when it already names the right
      set, otherwise it becomes an enumeration of that set in any order. */
  ghost predicate ProfileRepaired(p: AppProfile, p': AppProfile, valid: set<string>) {
    && p' == p.(invalidAppNames := p'.invalidAppNames, health := HealthFor(InvalidOf(p, valid)))
    && if Items(p.invalidAppNames) == InvalidOf(p, valid)
       then p'.invalidAppNames == p.invalidAppNames
       else multiset(p'.invalidAppNames) == multiset(InvalidOf(p, valid))
  }

  ghost predicate ProfileStep(p: AppProfile, p': AppProfile, valid: set<string>) {
    p' == p || (!ProfileSynced(p, valid) && ProfileRepaired(p, p', valid))
  }

  // ------------------------------------------------------------ apps

  /** The reconciler only maintains apps with exactly one generator, of list type. */
  predicate Targetable(a: AppSet) {
    |a.generators| == 1 && a.generators[0].ListGenerator?
  }

  /** The cluster names read from a generator: decoding stops at the first
      malformed element, and values that are not strings are skipped. */
  function DecodedNames(elements: seq<Element>): set<string> {
    if elements == [] || elements[0].Malformed? then {}
    else NameIn(elements[0]) + DecodedNames(elements[1..])
  }

  function NameIn(e: Element): set<string>
    requires e.Object?
  {
    if CLUSTER_NAME in e.fields && e.fields[CLUSTER_NAME].JString? then {e.fields[CLUSTER_NAME].s} else {}
  }

  function NewElement(name: string, server: string): Element {
    Object(map[CLUSTER_NAME := JString(name), CLUSTER_SERVER := JString(server)])
  }

  /** What docs/appprofiles.md promises, read from the app's side: the clusters
      listing some profile that names this existing app. */
  function Targets(app: string, s: Snapshot): set<string> {
    if app !in ValidNames(s.appSets) then {}
    else
      set c, p | c in s.clusters && p in s.profiles && app in p.appNames
              && p.name in Listed(Effective(c, ArlonIndex(s.clusterApps))) :: c.name
  }

  /** The same promise read from the cluster's side: the union of the valid
      apps of the profiles that a list names. */
  function AppsOf(profiles: seq<string>, s: Snapshot): set<string> {
    set p, a | p in s.profiles && p.name in profiles && a in p.appNames && a in ValidNames(s.appSets) :: a
  }

  predicate AppSynced(a: AppSet, s: Snapshot) {
    Targetable(a) ==> DecodedNames(a.generators[0].elements) == Targets(a.name, s)
  }

  function FreshElements(targets: set<string>, clusters: seq<ArgoCluster>): set<Element> {
    set n | n in targets :: NewElement(n, ServerOf(n, clusters))
  }

  /** A rewrite: one element per target, in any order, without duplicates. */
  ghost predicate AppRepaired(a: AppSet, a': AppSet, s: Snapshot) {
    && Targetable(a) && Targetable(a') && a'.name == a.name
    && multiset(a'.generators[0].elements) == multiset(FreshElements(Targets(a.name, s), s.clusters))
  }

  ghost predicate AppStep(a: AppSet, a': AppSet, s: Snapshot) {
    a' == a || (!AppSynced(a, s) && AppRepaired(a, a', s))
  }

  // ------------------------------------------------------------ passes

  ghost predicate ClustersSynced(s: Snapshot) {
    forall c | c in s.clusters :: ClusterSynced(c, ArlonIndex(s.clusterApps))
  }

  ghost predicate ProfilesSynced(s: Snapshot) {
    forall p | p in s.profiles :: ProfileSynced(p, ValidNames(s.appSets))
  }

  ghost predicate InSync(s: Snapshot) {
    && ClustersSynced(s)
    && ProfilesSynced(s)
    && forall a | a in s.appSets :: AppSynced(a, s)
  }

  ghost predicate SameShape(s: Snapshot, t: Snapshot) {
    && t.clusterApps == s.clusterApps
    && |t.clusters| == |s.clusters| && |t.profiles| == |s.profiles| && |t.appSets| == |s.appSets|
  }

  /** Every object is either untouched or was out of sync and got repaired
      to the value that the FIRST snapshot determines. */
  ghost predicate Steps(s: Snapshot, t: Snapshot) {
    && SameShape(s, t)
    && (forall i | 0 <= i < |s.clusters| :: ClusterStep(s.clusters[i], t.clusters[i], ArlonIndex(s.clusterApps)))
    && (forall i | 0 <= i < |s.profiles| :: ProfileStep(s.profiles[i], t.profiles[i], ValidNames(s.appSets)))
    && (forall i | 0 <= i < |s.appSets| :: AppStep(s.appSets[i], t.appSets[i], s))
  }

  // Counts of objects out of sync, one list at a time.

  function PendingClusters(clusters: seq<ArgoCluster>, arlon: map<string, ClusterApp>): nat {
    if clusters == [] then 0
    else (if ClusterSynced(clusters[0], arlon) then 0 else 1) + PendingClusters(clusters[1..], arlon)
  }

  function PendingProfiles(profiles: seq<AppProfile>, valid: set<string>): nat {
    if profiles == [] then 0
    else (if ProfileSynced(profiles[0], valid) then 0 else 1) + PendingProfiles(profiles[1..], valid)
  }

  function PendingApps(appSets: seq<AppSet>, s: Snapshot): nat {
    if appSets == [] then 0
    else (if AppSynced(appSets[0], s) then 0 else 1) + PendingApps(appSets[1..], s)
  }

  function Pending(s: Snapshot): nat {
    PendingClusters(s.clusters, ArlonIndex(s.clusterApps))
    + PendingProfiles(s.profiles, ValidNames(s.appSets))
    + PendingApps(s.appSets, s)
  }

  /** One pass of ReconcileEverything from s to t that attempted some update
      calls, of which `writes` took effect. `done` means it returned no error. */
  datatype Pass = Pass(before: Snapshot, after: Snapshot, done: bool, attempts: nat, writes: nat)

  ghost predicate IsPass(p: Pass) {
    && Steps(p.before, p.after)
    // phases run in order: statuses only once annotations agree, apps only once statuses do
    && (p.after.profiles != p.before.profiles ==> ClustersSynced(p.after))
    && (p.after.appSets != p.before.appSets ==> ClustersSynced(p.after) && ProfilesSynced(p.after))
    && (p.done ==> InSync(p.after))
    && p.writes + Pending(p.after) == Pending(p.before)
    && p.writes <= p.attempts <= p.writes + 1
    && (p.done ==> p.attempts == p.writes)
    && p.attempts <= Pending(p.before)
  }
}
