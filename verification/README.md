# Arlon: a verified model

This project models, in Dafny 4.11, the parts of Arlon in which state, failures
and several components meet, and proves what they achieve together.

* **AppProfile reconciler** (`AppProfileSpec`, `AppProfileTheorems`,
  `AppProfileMeaning`, `AppProfileReconciler`). `AppProfileSpec` says what a global pass is for, as
  relations between snapshots. `AppProfileReconciler` is the three-phase pass as
  code, with mutable sets and indexes, over a store in which any update call may
  fail, or take effect and report failure; it is proved to be a pass.
  `AppProfileTheorems` derives crash tolerance, refinement, the fixpoint and the
  write count for arbitrary histories of passes; `AppProfileMeaning` restates what
  a completed history achieves with every key, shape and value written out.
* **Cluster controller** (`ClusterMachine`, `ClusterSafety`, `ClusterProgress`,
  `ClusterTeardown`, `ClusterController`). `ClusterMachine` has one step per API
  call, interleaved with the user, ArgoCD and crashes. `ClusterController` is
  Reconcile as code; a ghost log proves each of its executions to be a run of the
  machine. The other modules prove safety in every reachable state and progress
  of creation and deletion.
* **Both composed** (`EndToEnd`).
* **Profile compiler** (`Text`, `Overrides`, `ProfileUpdate`, `ProfileGit`).
* **Cluster templates** (`BaseCluster`): preparation against validation.
* **Gen1 clusters** (`Decimal`, `GoPath`, `ClusterSpecs`, `RootApps`,
  `ClusterUpdate`): what updates can never change.

`dafny verify dfyconfig.toml` checks everything. No other program is involved.

## Conventions

`Fault` is the outcome of a remote call: `Fine`, `Lost` (no effect, error) or
`Late` (effect, and still an error). Kubernetes annotation maps distinguish nil
from empty. Lists and maps that Go code grows are sequences and maps that methods
reassign; the sets inside the AppProfile indexes are objects, so sharing is
visible. Clocks, credentials and clients appear only as calls that may fail.
Directories of a repository are compared by the components that lead to them from
its root, as the worktree's file system resolves them. What the git library does
when told to remove a directory by an absolute path - its index holds relative
names - is a parameter, `World.absoluteRemove`; it only matters for override bases
that are empty or begin with a slash.

## Where the code differs from what one might expect

* A single lost status write during deletion, or a resource without an annotation
  map, can leave a resource with an override undeletable
  (`ClusterTeardown.LostWriteStrands`, `NilAnnotationsStrand`); deletion finishes
  iff the recorded directory is still there and may be removed (`TeardownIffIntact`).
  Every spelling of an override base leads to one directory (`PathsCoincide`).
* The guard of `cluster.Create` looks at the cluster app's name: a missing arlon
  app is re-created iff the cluster app is missing too
  (`ClusterProgress.GuardBlocksRecreation`, `RecreatedIff`).
* An app whose decoded cluster set is unchanged is not rewritten, so a changed
  server address stays stale, and decoding stops at the first malformed element, so
  what is behind it stays too. `AppProfileTheorems.ExactlyWhen` says when a
  generator ends up exact, `InexactGeneratorsStay` gives both failing inputs.
* The comma-list codec loses [""] and lists with commas (`Text.DecodeEncoded`).
* A gen1 cluster under a base that cleans to "." can never be updated
  (`ClusterUpdate.AllowedExactly`).
* An override of a Helm bundle called arlon.clusterName is rendered beside the
  cluster name, under the same name (`ProfileGit.ReservedKeyIsRenderedTwice`);
  overrides of other dynamic bundles are not rendered at all.
* The tutorial (docs/tutorial.md:413-415) forbids updates that change region or
  pod CIDR block; the code checks the provider triple only
  (`ClusterUpdate.OnlyTripleIsChecked`, `RegionMayChange`).
* Specifications for gcp and azure pass the triple check but no region of theirs
  is known, so the create command stores AWS specifications only.
* A gen2 application with the autoscaler gets its tag but not its exception for
  replicas (pkg/cluster/root_app.go:66-72 against 140).

## Model

| member | source | states |
|---|---|---|
| `AppProfileReconciler.Store.ReconcileEverything` | pkg/appprofile/reconcile.go:55-282 | One global pass over a store whose update calls may be lost, or take effect and be reported as failed, at any point: whatever fails, the result is a pass in the sense of `AppProfileSpec.IsPass` - every object is untouched or was out of sync and is now what the first snapshot demands, phases never overtake each other, attempts and effective writes are accounted for one by one, and no error means everything is in sync. It returns an error only right after an update call that failed, so without a failing call it completes |
| `AppProfileReconciler.Store.ReconcileClusters` | pkg/appprofile/reconcile.go:119-176 | The cluster loop synchronises annotations and fills both indexes: each profile gets exactly the clusters whose effective annotation lists it, each name the last server registered for it |
| `AppProfileReconciler.Store.ReconcileCluster` | pkg/appprofile/reconcile.go:122-175 | One cluster: the effective annotation is pushed only when it differs, the index grows by this cluster under exactly the listed profiles |
| `AppProfileReconciler.Store.ReconcileProfiles` | pkg/appprofile/reconcile.go:178-223 | The profile loop repairs every status and leaves, for every existing app, the union of the clusters of the profiles that contain it |
| `AppProfileReconciler.Store.ReconcileProfile` | pkg/appprofile/reconcile.go:181-223 | One profile: its status is repaired only when out of sync, and the app index grows by its users |
| `AppProfileReconciler.Store.SortAppNames` | pkg/appprofile/reconcile.go:184-199 | The names that are not apps become the invalid set; an existing app gains the profile's clusters through a freshly allocated union, so the two indexes never share a set |
| `AppProfileReconciler.Store.ReconcileStatus` | pkg/appprofile/reconcile.go:200-222 | The invalid list is rewritten only when its set changed, health follows it, and at most one update is attempted, only when something changed |
| `AppProfileReconciler.Store.ReconcileApp` | pkg/appprofile/reconcile.go:226-279 | One app: left as it is unless it has exactly one generator, a list; then the decoded set ends up equal to the target set, by a rewrite with one element per target only when it differed |
| `AppProfileReconciler.Store.ReconcileApps` | pkg/appprofile/reconcile.go:225-279 | The app loop: afterwards every app is in sync with the first snapshot of the pass |
| `AppProfileReconciler.Store.ReconcileTargets` | pkg/appprofile/reconcile.go:178-279 | Profiles, then apps: both phases are repaired and accounted for, and the apps are left alone when the profiles gave up |
| `AppProfileReconciler.PhasesMakePass` | pkg/appprofile/reconcile.go:119-279 | Three accounted phases in a row, the later ones possibly never reached, make a pass |
| `AppProfileReconciler.Store.IndexArlonClusters` | pkg/appprofile/reconcile.go:86-89 | The last application of a name wins |
| `AppProfileReconciler.Store.CollectAppNames` | pkg/appprofile/reconcile.go:105-108 | The valid names are exactly the names of the listed application sets |
| `AppProfileReconciler.UpdateProfileToClustersMap` | pkg/appprofile/reconcile.go:284-299 | Adds the cluster to the sets of exactly the listed profiles and to no other, creating sets that nothing else shares |
| `AppProfileReconciler.DecodeClusters` | pkg/appprofile/reconcile.go:239-257 | The decoded names: decoding stops at the first malformed element, values that are not strings are skipped |
| `AppProfileReconciler.EncodeClusters` | pkg/appprofile/reconcile.go:265-272 | The new elements enumerate the set once each, with the indexed server |
| `AppProfileReconciler.StringSet.Union` | pkg/appprofile/reconcile.go:196 | A union is a new set: neither operand is changed or shared |
| `AppProfileReconciler.SetIndex.AddAll` | pkg/appprofile/reconcile.go:191-197 | Adding another index's set under a key changes that key only and keeps the sets of one index pairwise distinct |
| `AppProfileReconciler.ReachedIsTargets` | pkg/appprofile/reconcile.go:187-199 | What the loops accumulate for an app is the relational target: the clusters listing some profile that contains it |
| `AppProfileTheorems.InputsPreserved` | pkg/appprofile/reconcile.go:119-279 | No write of a pass touches an input: valid names, effective annotations, invalid sets, targets and servers are the same before and after |
| `AppProfileTheorems.StepsCompose` | pkg/appprofile/reconcile.go:119-279 | Two partial repairs in a row are one partial repair of the first state |
| `AppProfileTheorems.Confluence` | pkg/appprofile/reconcile.go:119-279 | Any two ways of reaching a state in sync from the same state end in the same annotations, invalid sets, health and generator contents, up to order |
| `AppProfileTheorems.CrashTolerance` | pkg/appprofile/reconcile.go:172-174 | Any number of passes aborted anywhere, then one that completes, end where a single completed pass would have, with the same number of effective writes in total |
| `AppProfileTheorems.WritesConserved` | pkg/appprofile/reconcile.go:143-174 | Over any history of passes, effective writes plus what is still out of sync equals what was out of sync at the start |
| `AppProfileTheorems.NothingPending` | pkg/appprofile/reconcile.go:262-264 | The out-of-sync count is zero exactly when everything is in sync |
| `AppProfileTheorems.Fixpoint` | pkg/appprofile/reconcile.go:200-222 | After a completed pass the next pass attempts no write and changes nothing |
| `AppProfileTheorems.Refinement` | pkg/appprofile/reconcile.go:225-279 | After a completed history an app with exactly one generator, a list, decodes to exactly the registered clusters for which it is among the valid apps of the profiles that their effective annotation lists |
| `AppProfileTheorems.Transpose` | docs/appprofiles.md:173-175 | The rule read from the app's side (which clusters target it) and from the cluster's side (which apps it gets, the documented union) agree |
| `AppProfileTheorems.ProfileTruth` | pkg/appprofile/reconcile.go:200-222 | After a completed history a profile lists as invalid exactly its names without an app, and is degraded iff there are any, healthy iff there are none |
| `AppProfileTheorems.AnnotationTruth` | pkg/appprofile/reconcile.go:138-165 | After a completed history every registered cluster carries its effective annotation; its name, server and other annotations are untouched |
| `AppProfileTheorems.ServerIsRegistered` | pkg/appprofile/reconcile.go:122-126 | The server looked up for a listed cluster name is the server of some registered cluster of that name, never a default |
| `AppProfileTheorems.RewrittenExactly` | pkg/appprofile/reconcile.go:265-275 | An app rewritten anywhere in a history had, and has, exactly one generator, a list: one element per target, none twice, each with the server of a registered cluster of that name |
| `AppProfileTheorems.ExactlyWhen` | pkg/appprofile/reconcile.go:239-275 | After a completed history a list-generator app holds exactly one element per target, with its server, if and only if it was out of sync before, and so was rewritten, or held exactly that already |
| `AppProfileTheorems.InexactGeneratorsStay` | pkg/appprofile/reconcile.go:242-264 | The failing inputs: a server address that changed since the app was written, and a malformed element behind the last one that decodes; a completed pass leaves both as they are |
| `AppProfileTheorems.OrderIndependence` | pkg/appprofile/reconcile.go:122-199 | Permuting clusters, applications, apps, profiles or the names inside a profile changes no target set and no set of valid names |
| `AppProfileTheorems.ProfileOrderIndependence` | pkg/appprofile/reconcile.go:187-208 | Nor does it change a profile's invalid set or whether it is in sync |
| `AppProfileTheorems.IndexHolds` | pkg/appprofile/reconcile.go:86-89 | With unique names the index holds exactly the listed applications |
| `AppProfileMeaning.AppsLandWhereListed` | docs/appprofiles.md:173-175 | The documented rule with every key and shape written out: after a completed history an app whose generators were one list is read as naming a cluster iff the comma-separated arlon.io/profiles list of that cluster's Arlon application, or its own if it has none, contains a profile that contains the app |
| `AppProfileMeaning.OtherAppsStay` | pkg/appprofile/reconcile.go:226-238 | An app with no generator, several, or one that is not a list is the same after any history |
| `AppProfileMeaning.RewrittenElements` | pkg/appprofile/reconcile.go:265-275 | A rewritten list holds exactly the two-field elements naming a cluster that should be targeted and the server last registered under that name, none twice |
| `AppProfileMeaning.NewAppIsFilled` | pkg/app/app.go:64-73 | An instance: the empty list that every new app starts with holds the one targeted cluster, with its server, after a completed history |
| `AppProfileMeaning.DecodedMeans` | pkg/appprofile/reconcile.go:239-257 | A name is decoded iff some element up to which none is malformed has it as the string under cluster_name |
| `AppProfileMeaning.ServerMeans` | pkg/appprofile/reconcile.go:122-126 | The server of a registered name is that of the last cluster registered under it |
| `AppProfileMeaning.EffectiveMeans` | pkg/appprofile/reconcile.go:127-148 | A profile is among those of a cluster iff the deciding annotation map has arlon.io/profiles, and the profile is a piece of that comma-separated value |
| `AppProfileMeaning.ClustersCarryTheList` | pkg/appprofile/reconcile.go:138-165 | After a completed history a cluster has the nonempty list of its Arlon application under arlon.io/profiles; an empty or missing one removes the list that the cluster had, and otherwise the cluster is left alone |
| `AppProfileMeaning.OwnListsStay` | pkg/appprofile/reconcile.go:127-140 | A cluster without an Arlon application is the same after a completed history |
| `ClusterController.ClusterReconciler.Reconcile` | controllers/cluster_controller.go:78-254 | The reconcile procedure under any sequence of ticks, each some environment steps and the fate of one call: the actions taken are exactly Begin and those ticks, and replaying them on the machine leads from the old world, idle, to the new one, idle. Without failures and interference the result is the machine's failure-free reconcile, with failures alone a faulty round of `ClusterProgress`, and from an initial resource the world ends safe |
| `ClusterController.ClusterReconciler.ReconcileResource` | controllers/cluster_controller.go:83-165 | Reading, connecting, finalizer, template and override: the calls made are the machine's |
| `ClusterController.ClusterReconciler.ReconcileApps` | controllers/cluster_controller.go:167-199 | Looking up and creating the arlon app behind the guard: the calls made are the machine's |
| `ClusterController.ClusterReconciler.ReconcileClusterApp` | controllers/cluster_controller.go:200-254 | Creating the cluster app or pushing the profiles annotation to it: the calls made are the machine's |
| `ClusterController.ClusterReconciler.ReconcileDelete` | controllers/cluster_controller.go:274-374 | Override directory, then cluster app: the calls made are the machine's |
| `ClusterController.SyncProfiles` | controllers/cluster_controller.go:225-238 | The annotation sync: whether the cluster app needs an update, and the app to update it with |
| `ClusterController.ClusterReconciler.ReconcileOverride` | controllers/cluster_controller.go:284-303 | Deleting the override directory and recording it: the calls made are the machine's |
| `ClusterController.ClusterReconciler.ReleaseResource` | controllers/cluster_controller.go:334-374 | Arlon app, then finalizer: the calls made are the machine's |
| `ClusterController.ClusterReconciler.UpdateState` | controllers/cluster_controller.go:256-272 | One status write, whatever its outcome |
| `ClusterController.ClusterReconciler.CreatePatchDir` | pkg/cluster/create.go:105-130 | Writes the directory that the joined path leads to, possibly without learning of it |
| `ClusterController.ClusterReconciler.DeleteOverridesDir` | pkg/cluster/delete.go:88-136 | Finds the directory that the recorded path leads to and removes it; fails if it is not there. What removing by an absolute path does is a parameter of the world |
| `ClusterController.ClusterReconciler.CreateApp` | pkg/cluster/cluster_app.go:14-37 | Creates an application that does not exist yet, with the constructed content |
| `ClusterSafety.Safety` | controllers/cluster_controller.go:105-223 | In every reachable state, under any failures, crashes and deletion requests: a cluster app implies a live arlon app, any app implies the resource and its finalizer, nothing is deleted before deletion was requested, the override is dealt with before the cluster app; the cluster app deploys the template itself, or with an override that repository and revision at base/name; the arlon app deploys the given chart or Arlon's own; and the status is truthful - "created" implies both apps, the inner name and an override directory that holds the patch on top of the template |
| `ClusterSafety.CreatedAnnotations` | pkg/cluster/cluster_app.go:38-71 | The five annotations that a cluster app is created with, by key: the inner name, URL, revision and path of the override's repository or else of the template, and whether there is an override |
| `ClusterSafety.CreatedChartAnnotations` | pkg/cluster/root_app.go:37-49 | The two annotations that an arlon app is created with |
| `ClusterSafety.RunKeepsInv` | controllers/cluster_controller.go:274-374 | The inductive invariant behind it holds along every run |
| `ClusterSafety.CallKeepsInv` | controllers/cluster_controller.go:78-374 | Every API call keeps it, whether the call works, is lost, or works and reports failure |
| `ClusterSafety.EnvKeepsInv` | controllers/cluster_controller.go:105-108 | So does everything the user and ArgoCD do between calls |
| `ClusterProgress.CreationStep` | controllers/cluster_controller.go:110-253 | A failure-free reconcile lowers what is missing (finalizer, inner name, override, arlon app, cluster app, annotation sync), or comes to rest when nothing is; at rest a reconcile only reads |
| `ClusterProgress.SetupStep` | controllers/cluster_controller.go:110-160 | Before the apps, each failure-free reconcile supplies one missing thing: the finalizer, then the template's inner name with state "template-validated", then the override with state "override-created" |
| `ClusterProgress.FailuresAreReported` | controllers/cluster_controller.go:78-374 | The state that each failing call is reported with, the rest of the copy unchanged; failing reads of the resource and finalizer or status writes report nothing |
| `ClusterProgress.AppsStep` | controllers/cluster_controller.go:167-253 | With the apps, a failure-free reconcile leaves less missing, or comes to rest; at rest it changes nothing |
| `ClusterProgress.CallsNeverRegress` | controllers/cluster_controller.go:110-253 | No failing call, anywhere in a reconcile, raises what is missing |
| `ClusterProgress.RoundsNeverRegress` | controllers/cluster_controller.go:110-253 | Nor does any reconcile that fails or crashes anywhere |
| `ClusterProgress.CreationConverges` | controllers/cluster_controller.go:110-253 | However reconciles fail in between, as many failure-free ones as things missing, and one more, end at rest in state "created" |
| `ClusterProgress.AppsSettle` | controllers/cluster_controller.go:167-253 | What a failure-free reconcile does to the two apps, in closed form |
| `ClusterProgress.GuardBlocksRecreation` | pkg/cluster/create.go:39-45 | The guard tests the cluster app's name: once the arlon app alone is gone, no run without a deletion request, whatever fails, ever re-creates it |
| `ClusterProgress.OrphanRetries` | pkg/cluster/create.go:39-45 | A failure-free reconcile of such a resource changes nothing but its state, to "retrying" |
| `ClusterProgress.RecreatedIff` | pkg/cluster/create.go:39-45 | A failure-free reconcile that finds the arlon app missing re-creates it if and only if the cluster app is missing too |
| `ClusterTeardown.ReconcileTears` | controllers/cluster_controller.go:281-373 | A failure-free reconcile of a resource under deletion, in closed form |
| `ClusterTeardown.TeardownStep` | controllers/cluster_controller.go:281-373 | Deletion order and progress: the override directory first, then the cluster app, then the arlon app, then the finalizer, under a measure that falls unless ArgoCD has yet to finish |
| `ClusterTeardown.TeardownTerminates` | controllers/cluster_controller.go:281-373 | With failure-free rounds and the recorded directory in place, the resource and both apps are gone after as many rounds as things remain; from git exactly the recorded directory is removed, unless the library keeps it |
| `ClusterTeardown.WindingCalls` | controllers/cluster_controller.go:305-373 | Once no override is owed, no failing call of a deletion raises what remains |
| `ClusterTeardown.TeardownConverges` | controllers/cluster_controller.go:305-373 | Once no override is owed, however reconciles fail or crash in between, as many failure-free ones as things remain end with the resource and both apps gone |
| `ClusterTeardown.TeardownIffIntact` | pkg/cluster/delete.go:105-115 | Deletion finishes if and only if a recorded override directory is still where its path leads and the git library does not refuse to remove it |
| `ClusterTeardown.StrandedForever` | pkg/cluster/delete.go:105-108 | Once it is not, no run of any actions ever releases the resource |
| `ClusterTeardown.LostWriteStrands` | controllers/cluster_controller.go:299-302 | A single lost status write after the directory was dealt with makes the resource undeletable, exactly if the directory was removed |
| `ClusterTeardown.NilAnnotationsStrand` | controllers/cluster_controller.go:235-236 | So is a resource without an annotation map: syncing erases where the directory is |
| `ClusterTeardown.RunKeepsRecords` | controllers/cluster_controller.go:227-238 | As long as the resource keeps an annotation map, the cluster app keeps recording where its override directory is |
| `ClusterTeardown.PathsCoincide` | pkg/cluster/cluster_app.go:105-111 | For every override base the cluster app deploys base/name of the override's repository and revision, spelled like the recorded path, and it leads to the directory that was written; it is absolute exactly for the bases "" and those with a leading slash, and spelled like the written one exactly for clean bases other than "", "." and "/" |
| `ClusterTeardown.AnnotatedTeardown` | pkg/cluster/delete.go:90-92 | After any run in which the annotation map never vanished, deletion finishes iff it is not the case that an override is owed under an absolute path and the git library refuses to remove by one; then everything goes, including the written directory unless the library keeps it, and nothing else |
| `EndToEnd.AnnotationPushed` | controllers/cluster_controller.go:225-248 | At rest the cluster app carries the resource's own profiles annotation, or none if it has none |
| `EndToEnd.Propagation` | controllers/cluster_controller.go:225-248 | Both controllers composed: once enough reconciles were failure-free and a history of passes completed, an app with exactly one generator, a list, names the registered cluster iff it is in a profile named in the comma-separated list of the Cluster resource's own annotation |
| `Overrides.UpsertSound` | pkg/profile/update.go:66-87 | (bundle, key) pairs stay unique, old entries keep their places, new pairs follow in first-seen order, and the map view is the old one updated from left to right |
| `Overrides.UpsertMeans` | pkg/profile/update.go:66-87 | What an upsert leaves is, for each bundle and key, its last mention in the old list followed by the new one |
| `Overrides.DirtyExact` | pkg/profile/update.go:68-87 | The dirty flag stays off iff every override already had its value, and then the list is unchanged |
| `Overrides.ReapplyIsClean` | pkg/profile/update.go:68-87 | Applying duplicate-free overrides again is clean |
| `Overrides.MakeOverridesMap` | pkg/profile/git.go:81-93 | The map holds for every bundle exactly its entries, in list order, and no empty group |
| `Overrides.GroupingConserves` | pkg/profile/git.go:86-91 | Every entry occurs in its bundle's group as often as in the list |
| `Overrides.GroupingKeepsOrder` | pkg/profile/git.go:86-91 | Groups are subsequences of the list |
| `Overrides.GroupKeysUnique` | pkg/profile/git.go:86-91 | Unique pairs give groups with unique keys |
| `Overrides.RenderedLatest` | pkg/gitutils/bundles.go:100-109 | After an upsert a bundle's group has each key ever set for this bundle once, with its latest value, and nothing of other bundles |
| `ProfileUpdate.Profile.UpsertOverrides` | pkg/profile/update.go:66-87 | The nested loops compute the upsert and its dirty flag in place |
| `ProfileUpdate.Profile.Update` | pkg/profile/update.go:17-90 | The whole in-memory update: missing bundles are refused without change, each field is replaced only when it says something new, and dirty is exactly: a field changed or the override loop changed an entry |
| `ProfileUpdate.IsSubset` | pkg/profile/utils.go:226-230 | Subset of the sets of names |
| `ProfileGit.FilesExact` | pkg/gitutils/manifests.go:28-64 | The recursive walk finds exactly the files that resolve from the root |
| `ProfileGit.Worktree.CopyManifests` | pkg/gitutils/manifests.go:28-64 | Writes every file of the embedded tree below its destination, first component dropped, and nothing else |
| `ProfileGit.Worktree.ProcessBundle` | pkg/gitutils/bundles.go:87-143 | One bundle: both or neither of data and repository is an error; otherwise exactly its data file (static) and its application manifest are written |
| `ProfileGit.Worktree.ProcessBundles` | pkg/gitutils/bundles.go:71-145 | All bundles in order; success implies every bundle is well typed |
| `ProfileGit.CreateInGit` | pkg/profile/git.go:19-79 | All or nothing: the branch becomes the regenerated tree or stays as it was - unless a push took effect and was reported as failed. With a working disk it succeeds iff the clone, the commit and a needed push do, no file is in the directory's place, every bundle has data or else a repository, and no write needs a file where a directory is |
| `ProfileGit.Generate` | pkg/profile/git.go:37-59 | Up to the commit: success leaves the regenerated tree, and only a failing file operation or a profile that cannot be generated prevents it |
| `ProfileGit.FittingIsGeneratable` | pkg/gitutils/bundles.go:87-143 | Well-typed bundles and a chart that leaves room for them can be generated wherever no file is in the way of the directory |
| `ProfileGit.RegenerationIsClean` | pkg/profile/git.go:37-76 | Outside the directory nothing changes; inside it the result depends on profile and bundles only, never on what was there |
| `ProfileGit.RegenerationIsExact` | pkg/gitutils/bundles.go:87-143 | With distinct bundle names that clash with no chart template, each bundle's manifest carries its own settings and overrides, and the directory a static bundle deploys holds exactly its data |
| `ProfileGit.ManifestsPointHome` | pkg/gitutils/bundles.go:87-143 | The manifest of a static bundle deploys a directory of the profile's own repository that holds exactly <name>.yaml with the bundle's data; that of a dynamic bundle deploys the bundle's own URL and path with its overrides. Both carry the bundle's revision or HEAD, and are called <cluster>-<bundle> |
| `ProfileGit.ChartArrives` | pkg/gitutils/manifests.go:28-64 | Each embedded file is found, with its content, below mgmt under its path without the first component, unless another file or a bundle's manifest claims that path |
| `ProfileGit.RegenerationIsIdempotent` | pkg/profile/git.go:60-67 | Regenerating again changes nothing |
| `ProfileGit.UpdateReachesManifest` | pkg/gitutils/bundles.go:38-49 | After an upsert and a regeneration the manifest of a Helm bundle renders the cluster name first, and then exactly the last value mentioned for each key of this bundle - every name once iff no override of the bundle is itself called arlon.clusterName; other dynamic bundles render none |
| `ProfileGit.ReservedKeyIsRenderedTwice` | pkg/gitutils/bundles.go:44-49 | A concrete Helm bundle with an override called arlon.clusterName renders that name twice, with two values |
| `Text.CommaSeparatedFromStringList` | pkg/profile/utils.go:160-169 | The accumulating loop computes the comma-joined string |
| `Text.EncodeDecoded` | pkg/profile/utils.go:152-158 | Joining a split string gives the string back, for every string |
| `Text.DecodeEncoded` | pkg/profile/update.go:56-65 | Splitting a joined list gives it back iff no item contains a comma and the list is not [""]; otherwise even the set of items differs, so an update without bundles then rewrites the list |
| `GoPath.JoinAgrees` | pkg/cluster/cluster_app.go:105-108 | path.Join and plain concatenation spell a path alike exactly for clean bases other than "", "." and "/" |
| `GoPath.SamePlace` | pkg/cluster/delete.go:92-105 | Joined and concatenated they lead to the same components below a file system root, for every base |
| `GoPath.DecomposeInverts` | pkg/cluster/util.go:10-38 | decomposePath returns the clean base and the cluster name iff the base does not clean to "." or "/" |
| `GoPath.DecomposeRendered` | pkg/cluster/util.go:22-38 | What decomposePath returns on a management path, for every base |
| `GoPath.CleaningKeepsPaths` | pkg/cluster/util.go:10-24 | The clean base leads to the same cluster and management paths |
| `GoPath.CleanInside` | pkg/cluster/util.go:10-20 | The rules of path.Clean inside a path: doubled slashes and "." collapse, ".." undoes the component before it |
| `GoPath.PathsInFull` | pkg/cluster/util.go:10-38 | For clean bases that are no root, the cluster path is base/name, the management path base/name/mgmt, and decomposing it gives base and name back |
| `BaseCluster.TemplateDir.PrepareDir` | pkg/basecluster/prepare.go:161-257 | Without a failing file operation the outcome is the cluster name or the first error of the listing and its manifest, and only such a failure changes it. Success means the directory validates with the same cluster name and is ready: no later preparation changes it. Apart from the reserved files that were missing the listing is the old one, each resource of the manifest is prepared where it stands with the two bounds as decimal text, and a created kustomization names that manifest. A refusal leaves the directory untouched; a ready one is left alone |
| `BaseCluster.Prepare` | pkg/basecluster/prepare.go:34-74 | The name of the only cluster, or the first error; a new manifest only if something was modified and not when only validating, with every resource prepared in order |
| `BaseCluster.PrepareResource` | pkg/basecluster/prepare.go:78-103 | Drops the namespace; of a machine deployment a missing or empty bound is set, the maximum under max-size and the minimum under min-size; all else is kept. Reports a modification only if there was one |
| `BaseCluster.PreparedValidates` | pkg/basecluster/validate.go:25-40 | A prepared manifest validates exactly when the original names its cluster, with the same name |
| `BaseCluster.PreparedTwice` | pkg/basecluster/prepare.go:259-273 | Preparing again, with any other bounds, changes nothing |
| `BaseCluster.PreparedKeeps` | pkg/basecluster/prepare.go:78-103 | Every resource keeps its place, kind, name and valued annotations; of a machine deployment a bound that was missing or empty reads the maximum under max-size, the minimum under min-size; namespaces are gone |
| `BaseCluster.ListingPrepared` | pkg/basecluster/prepare.go:161-257 | What rewriting the manifest and adding the missing reserved files make of a listing, in terms of the listing before |
| `BaseCluster.Validate` | pkg/basecluster/validate.go:15-41 | The first offending resource decides the error |
| `BaseCluster.ValidatedMeans` | pkg/basecluster/validate.go:12-14 | A manifest validates iff no resource has a namespace and its cluster can be named |
| `BaseCluster.ClusterNameMeans` | pkg/basecluster/prepare.go:48-69 | When clusters have names, naming succeeds iff there is exactly one cluster, and gives its name |
| `BaseCluster.ClusterNameErrors` | pkg/basecluster/prepare.go:48-69 | With named clusters, naming fails as "no cluster" iff there is none, and otherwise only as "multiple clusters" |
| `BaseCluster.ValidatedNameIsNonempty` | pkg/basecluster/validate.go:37-39 | A valid template never has the empty cluster name |
| `BaseCluster.ValidDirectoryMeans` | pkg/basecluster/validate.go:71-105 | A directory validates as n iff it holds files only, both reserved files, exactly one other file, and that one is a readable manifest that validates as n |
| `BaseCluster.DirectoryErrors` | pkg/basecluster/validate.go:71-96 | Which error a directory of files gets: no manifest before no kustomization before no configurations |
| `BaseCluster.InsertReserved` | pkg/basecluster/prepare.go:222-255 | Adding a reserved file anywhere in a listing changes nothing but its flag |
| `BaseCluster.ReplaceManifest` | pkg/basecluster/prepare.go:206-221 | Rewriting the manifest in place changes nothing else about the scan |
| `BaseCluster.ValidIsPreparable` | pkg/basecluster/validate.go:97-104 | Whatever validates can be prepared, under the same name |
| `Decimal.AtoiOfItoa` | pkg/clusterspec/clusterspec.go:144-145 | A 64-bit integer reads back from its text |
| `Decimal.TooLarge` | pkg/clusterspec/clusterspec.go:144-145 | A number beyond 64 bits is not read |
| `ClusterSpecs.SpecRoundTrip` | pkg/clusterspec/clusterspec.go:87-169 | A stored specification reads back unchanged, for all values of all fields |
| `ClusterSpecs.StoredUnder` | pkg/clusterspec/clusterspec.go:87-123 | Which field is stored under which key, numbers in decimal |
| `ClusterSpecs.ReadingMeans` | pkg/clusterspec/clusterspec.go:125-169 | Reading fails iff the node count is unreadable; the three other numbers default to 3, 1 and 9, the autoscaler flag to off, and every other field is the text under its key |
| `ClusterSpecs.ValidTriplesAre` | pkg/clusterspec/utils.go:17-36 | The twelve valid triples, and the first offending part of any other |
| `ClusterSpecs.SubchartIsInjective` | pkg/clusterspec/clusterspec.go:179-188 | A subchart name determines API provider, cloud and cluster type |
| `ClusterSpecs.AutoscalerIsNoSubchart` | pkg/clusterspec/clusterspec.go:197-199 | No autoscaler subchart is named like a cluster subchart |
| `ClusterSpecs.Apply` | pkg/clusterspec/update.go:28-81 | For each of the nine editable fields: the argument when one was given, otherwise the old value; all other fields are the old ones; dirty iff some argument was given |
| `ClusterSpecs.EditsCollapse` | pkg/clusterspec/update.go:78-82 | Any history of edits equals one merged edit, applied field by field, and never touches triple, region, pod CIDR block, SSH key or subchart name |
| `ClusterSpecs.LastCountWins` | pkg/clusterspec/update.go:38-47 | Over a history of edits the last node count given wins, and so does the last master node count, independently |
| `ClusterSpecs.SpecStore.Create` | pkg/clusterspec/create.go:11-58 | Without a failing call it succeeds iff the triple is valid, the cloud is AWS with a known region and the name is new; a refusal changes nothing; nothing existing is overwritten |
| `ClusterSpecs.SpecStore.Update` | pkg/clusterspec/update.go:10-90 | Without a failing call it succeeds iff the specification exists and is readable; a clean update writes nothing; after a dirty one each of the nine editable fields reads as the argument when one was given and as before otherwise, and no other specification changes; no stored subchart name ever changes; soundness of the store is kept |
| `RootApps.ConstructRootApp` | pkg/cluster/root_app.go:13-155 | Fails iff the specification is unreadable or its triple invalid; otherwise the application's name, labels, repository, branch, path, ignored differences and exactly its Helm parameters are as written out in `IsRootAppFor`, each parameter name once |
| `RootApps.RootAppMeans` | pkg/cluster/root_app.go:26-155 | Every Helm parameter of a root application by name and value, gen1 and gen2, with its labels and ignored differences |
| `RootApps.AddSpecParams` | pkg/cluster/root_app.go:108-116 | The loop copies exactly the valid keys that have a value, without a name clash |
| `RootApps.AddTags` | pkg/cluster/root_app.go:117-130 | The subchart tag, and the autoscaler tag iff it is enabled, under different names |
| `RootApps.GlobalIsInjective` | pkg/cluster/root_app.go:74-115 | All names below "global." are different |
| `RootApps.TagIdentifiesTriple` | pkg/cluster/update.go:72-82 | Among the valid triples exactly the one an application was built from passes the subchart check against it |
| `ClusterUpdate.Gen1Clusters.Create` | pkg/cluster/create.go:19-103 | A gen1 deployment: without a failed call it is refused only for a name in use, a missing specification or one that is unreadable or has no valid triple, and then changes nothing; otherwise the directory is regenerated and, if asked for, the application written out in `IsRootAppFor` stored |
| `ClusterUpdate.Gen1Clusters.Admit` | pkg/cluster/update.go:36-93 | The checks of an update accept exactly the allowed ones |
| `ClusterUpdate.Gen1Clusters.Update` | pkg/cluster/update.go:25-127 | Without a failed call an update succeeds iff it is allowed; a refusal changes nothing; success stores an application with the old repository, branch and path, the given or recorded specification and profile, the given URL, and the parameters of that specification as it is stored now |
| `ClusterUpdate.UpdatedMeans` | pkg/cluster/update.go:94-113 | Every label, reference and Helm parameter of an application after an update, by name and value |
| `ClusterUpdate.UpdateKeepsIdentity` | pkg/cluster/update.go:67-103 | An update keeps the triple, repository, branch and path of every application |
| `ClusterUpdate.Immutability` | pkg/cluster/update.go:18-24 | Over any history of deployments, updates, deletions and arbitrary specification changes, a cluster that is not deleted keeps its triple, repository, branch and path |
| `ClusterUpdate.AllowedExactly` | pkg/cluster/update.go:36-93 | An update is allowed iff the specification and profile in force, given or recorded, exist, the specification is valid with an unchanged triple, and the base does not clean to "." |
| `ClusterUpdate.OnlyTripleIsChecked` | docs/tutorial.md:413-415 | Two specifications with the same triple are interchangeable to the check, so a changed region or pod CIDR block, which the tutorial rules out, is let through |
| `ClusterUpdate.RegionMayChange` | docs/tutorial.md:413-415 | An accepted update that moves a cluster to a specification with another region and pod CIDR block |
| `ClusterUpdate.UpdateRegeneratesInPlace` | pkg/cluster/update.go:86-113 | An accepted update regenerates the directory that the application deploys, for every base; the path is spelled alike iff the base does not clean to "/" |

## Left out

- Command line, installers, init, port forwarding, git aliases, listing and printing: input and output only.
- The insides of go-git, Kubernetes, ArgoCD, gRPC and kustomize: calls that may fail, on stores.
- YAML, JSON and template text: manifests, generator elements and rendered applications are datatypes; names are assumed free of characters that would need escaping in JSON.
- CallHomeConfig and ClusterRegistration controllers and the mutating webhook: short transitions to absorbing states, or one patch.
- Name syntax checks (pkg/bundle/common.go): work of the regular expression library; path results ask for names that are one path component instead.
- Leader election, cache staleness, requeue delays and status messages: reconciles of one object are serialized and may happen at any time.
- Resource versions: a status write is never refused because the resource changed since it was read, which allows more runs than the API server does.
- Edits of a Cluster's spec and re-creation of a resource of the same name during a run, and edits of the override repository by others: not among the environment's steps.
- The Helm parameters, labels and ignored differences of the two gen2 applications inside `ClusterMachine`: an application there is its annotations, source and deletion mark. `RootApps` covers the parameters of the arlon app.
- Changes of the listed objects by others while a global pass runs: a pass works on what it listed.
- Pushing an override directory whose content is already there: pkg/cluster/git.go:223-237 ignores whether anything changed and pushes anyway; the model takes such a push to succeed, and `ClusterProgress.CreationConverges` rests on that when an earlier push took effect and was reported as failed.
- Paths that lead out of a repository by leading ".." components, which the git library's file system may refuse.
- Empty directories: a directory of a worktree exists iff it holds a file.
- Bundle names in `ProfileGit` are single path components; a name with a slash is not modelled.
- The lookups of bundles, credentials and the stored profile in the profile update: `ProfileUpdate` ends with the dirty profile, `ProfileGit.CreateInGit` regenerates it, and storing it is one call.
- Bundles and dynamic profiles inside the git tree of a gen1 cluster: a deployment there is the repository, branch and path it regenerates; `ProfileGit` models the same generator for profiles.
- A root application without a Helm section, on which the update stops with a nil dereference: applications here always have parameters.
- Keys of a specification's ConfigMap outside the fifteen known ones, and its labels.
- External clusters, node-group updates and profile applications (pkg/cluster/external.go, ngupdate.go, profile_app.go): sequences of independent calls.
