/** ClusterReconciler of controllers/cluster_controller.go as code: one method
    per API call and Reconcile written over them. A ghost log of actions shows
    that every execution is a run of ClusterMachine. */
module ClusterController {
  import opened Wrappers
  import opened ClusterMachine
  import ClusterSafety
  import ClusterProgress

  /** What surrounds one API call: the environment's steps just before it, and
      how the call goes. */
  datatype Tick = Tick(before: seq<EnvStep>, fault: Fault)

  datatype AppName = ArlonAppName | ClusterAppName

  // ------------------------------------------------------------ traces

  function Envs(steps: seq<EnvStep>): seq<Action> {
    seq(|steps|, i requires 0 <= i < |steps| => Env(steps[i]))
  }

  function Actions(tick: Tick): seq<Action> {
    Envs(tick.before) + [Call(tick.fault)]
  }

  /** Everything that happens from one tick up to another. */
  function Trace(ticks: nat -> Tick, since: nat, until: nat): seq<Action>
    decreases until
  {
    if until <= since then [] else Trace(ticks, since, until - 1) + Actions(ticks(until - 1))
  }

  lemma {:induction false} CleanTrace(s: State, ticks: nat -> Tick, since: nat, until: nat)
    requires forall k | since <= k < until :: ticks(k) == Tick([], Fine)
    ensures Settle(Run(s, Trace(ticks, since, until))) == Settle(s)
    decreases until
  {
    if since < until {
      var before := Trace(ticks, since, until - 1);
      CleanTrace(s, ticks, since, until - 1);
      assert Actions(ticks(until - 1)) == [Call(Fine)];
      ClusterProgress.RunAppend(s, before, [Call(Fine)]);
      var t := Run(s, before);
      assert Run(t, [Call(Fine)]) == Run(Next(t, Call(Fine)), []);
      if !t.pc.Idle? {
        ClusterProgress.Descends(t);
      }
    }
  }

  /** Pushes the profiles annotation from the resource to its cluster app. */
  method SyncProfiles(cl: Cluster, clusterApp: App) returns (app: App, sync: bool)
    ensures SyncedApp(cl, clusterApp) == if sync then Some(app) else None
  {
    app, sync := clusterApp, false;
    if cl.annotations.Some? && (app.annotations.None?
       || Lookup(cl.annotations, PROFILES_KEY) != Lookup(app.annotations, PROFILES_KEY)) {
      if app.annotations.None? {
        app := app.(annotations := Some(map[]));
      }
      app := app.(annotations := Some(app.annotations.value[PROFILES_KEY := Lookup(cl.annotations, PROFILES_KEY)]));
      sync := true;
    } else if cl.annotations.None? && app.annotations.Some? {
      app := app.(annotations := None);
      sync := true;
    }
  }

  function Faults(ticks: nat -> Tick, since: nat, until: nat): seq<Fault>
    requires since <= until
  {
    seq(until - since, i requires 0 <= i < until - since => ticks(since + i).fault)
  }

  /** Failing calls without interference make a round of ClusterProgress. */
  lemma {:induction false} UndisturbedTrace(ticks: nat -> Tick, since: nat, until: nat)
    requires since <= until && forall k | since <= k < until :: ticks(k).before == []
    ensures Trace(ticks, since, until) == ClusterProgress.Calls(Faults(ticks, since, until))
    decreases until
  {
    if since < until {
      UndisturbedTrace(ticks, since, until - 1);
      assert Actions(ticks(until - 1)) == [Call(ticks(until - 1).fault)];
      assert Faults(ticks, since, until) == Faults(ticks, since, until - 1) + [ticks(until - 1).fault];
    }
  }

  lemma {:induction false} UndisturbedRound(w: World, w': World, ticks: nat -> Tick, since: nat, until: nat)
    requires since <= until && forall k | since <= k < until :: ticks(k).before == []
    requires Run(State(w, Idle), [Begin] + Trace(ticks, since, until)) == State(w', Idle)
    ensures ClusterProgress.DoRound(w, ClusterProgress.Faulty(Faults(ticks, since, until))) == w'
  {
    UndisturbedTrace(ticks, since, until);
    ClusterProgress.RunAppend(State(w, Idle), [Begin] + Trace(ticks, since, until), [Crash]);
    assert Run(State(w', Idle), [Crash]) == Run(Next(State(w', Idle), Crash), []);
  }

  class ClusterReconciler {
    var w: World
    var clock: nat
    const ticks: nat -> Tick

    ghost const origin: State
    ghost var log: seq<Action>
    ghost var pc: Pc
    ghost var seen: World
    ghost var fault: Fault
    /** The log and the clock when the current reconcile began. */
    ghost var prefix: seq<Action>
    ghost var since: nat

    /** The log replayed on the machine leads to where we are, and since the
        reconcile began it holds what the ticks dictate and nothing else. */
    ghost predicate Valid()
      reads this
    {
      && Run(origin, log) == State(w, pc)
      && since <= clock && log == prefix + Trace(ticks, since, clock)
    }

    /** As Valid, after the environment's part of the latest tick. */
    ghost predicate Awaited()
      reads this
    {
      && Run(origin, log) == State(w, pc) && seen == w
      && since < clock && fault == ticks(clock - 1).fault
      && log == prefix + Trace(ticks, since, clock - 1) + Envs(ticks(clock - 1).before)
    }

    /** The last call was the machine's call at `at`. */
    ghost predicate Called(at: Pc, ok: bool)
      reads this
    {
      var (_, accepted) := Effect(State(seen, at));
      && State(w, pc) == DoCall(State(seen, at), fault)
      && ok == (accepted && fault == Fine)
    }

    constructor (w: World, ticks: nat -> Tick)
      ensures Valid() && this.w == w && pc == Idle && log == [] && origin == State(w, Idle) && this.ticks == ticks
    {
      this.w, this.ticks, clock := w, ticks, 0;
      origin, log, pc := State(w, Idle), [], Idle;
      prefix, since := [], 0;
    }

    ghost method Record(a: Action)
      requires Run(origin, log) == State(w, pc)
      modifies this`log
      ensures log == old(log) + [a] && Run(origin, log) == Next(State(w, pc), a)
    {
      ClusterProgress.RunAppend(origin, log, [a]);
      log := log + [a];
      assert Run(State(w, pc), [a]) == Run(Next(State(w, pc), a), []);
    }

    /** The environment acts, then the call is about to be answered. */
    method Await() returns (fate: Fault)
      requires Valid() && !pc.Idle?
      modifies this`w, this`clock, this`log, this`seen, this`fault
      ensures Awaited() && fault == fate && clock == old(clock) + 1
    {
      hide Trace, EnvEffect;
      var tick := ticks(clock);
      clock := clock + 1;
      for i := 0 to |tick.before|
        invariant clock == old(clock) + 1 && Run(origin, log) == State(w, pc)
        invariant log == prefix + Trace(ticks, since, clock - 1) + Envs(tick.before)[..i]
      {
        Record(Env(tick.before[i]));
        w := EnvEffect(w, tick.before[i]);
        assert Envs(tick.before)[..i + 1] == Envs(tick.before)[..i] + [Env(tick.before[i])];
      }
      assert Envs(tick.before)[..|tick.before|] == Envs(tick.before);
      fate := tick.fault;
      seen, fault := w, fate;
    }

    /** The call has been answered: the machine takes the same step. */
    ghost method Answered(at: Pc)
      requires Run(origin, log) == State(seen, at) && pc == at && !at.Idle?
      requires since < clock && fault == ticks(clock - 1).fault
      requires log == prefix + Trace(ticks, since, clock - 1) + Envs(ticks(clock - 1).before)
      requires w == DoCall(State(seen, at), fault).w
      modifies this`log, this`pc
      ensures Valid() && pc == DoCall(State(seen, at), fault).pc
    {
      ClusterProgress.RunAppend(origin, log, [Call(fault)]);
      log := log + [Call(fault)];
      pc := DoCall(State(seen, at), fault).pc;
      assert Run(State(seen, at), [Call(fault)]) == Run(Next(State(seen, at), Call(fault)), []);
    }

    // ------------------------------------------------------------ API calls

    method ReadResource() returns (ok: bool, found: Option<Cluster>)
      requires Valid() && pc.ReadCluster?
      modifies this`w, this`clock, this`log, this`pc, this`seen, this`fault
      ensures Valid() && Called(old(pc), ok) && (ok ==> found == seen.cr)
    {
      hide Trace, Run, Envs;
      var fate := Await();
      ok, found := fate == Fine, w.cr;
      Answered(pc);
    }

    method NewApplicationClient() returns (ok: bool)
      requires Valid() && pc.Connect?
      modifies this`w, this`clock, this`log, this`pc, this`seen, this`fault
      ensures Valid() && Called(old(pc), ok)
    {
      hide Trace, Run, Envs;
      var fate := Await();
      ok := fate == Fine;
      Answered(pc);
    }

    method PatchFinalizer(add: bool) returns (ok: bool)
      requires Valid() && if add then pc.AddFinalizer? else pc.RemoveFinalizer?
      modifies this`w, this`clock, this`log, this`pc, this`seen, this`fault
      ensures Valid() && Called(old(pc), ok)
    {
      hide Trace, Run, Envs;
      var fate := Await();
      ok := fate == Fine && w.cr.Some?;
      if fate != Lost && w.cr.Some? {
        if add {
          w := w.(cr := Some(w.cr.value.(finalizer := true)));
        } else if w.cr.value.deleting {
          w := w.(cr := None);
        } else {
          w := w.(cr := Some(w.cr.value.(finalizer := false)));
        }
      }
      Answered(pc);
    }

    method ValidateGitDir() returns (ok: bool, innerClusterName: string)
      requires Valid() && pc.ValidateTemplate?
      modifies this`w, this`clock, this`log, this`pc, this`seen, this`fault
      ensures Valid() && Called(old(pc), ok) && (ok ==> innerClusterName == seen.templateName)
    {
      hide Trace, Run, Envs;
      var fate := Await();
      ok, innerClusterName := fate == Fine, w.templateName;
      Answered(pc);
    }

    method CreatePatchDir(cl: Cluster) returns (ok: bool)
      requires Valid() && pc == DeployPatch(cl) && cl.spec.override_.Some?
      modifies this`w, this`clock, this`log, this`pc, this`seen, this`fault
      ensures Valid() && Called(old(pc), ok)
    {
      hide Trace, Run, Envs;
      var fate := Await();
      ok := fate == Fine;
      if fate != Lost {
        w := w.(git := w.git[WrittenKey(cl) := PatchDir(cl.spec.override_.value.patch, cl.spec.template)]);
      }
      Answered(pc);
    }

    method GetApp(name: AppName) returns (ok: bool, app: Option<App>)
      requires Valid()
      requires if name.ArlonAppName? then pc.ReadArlonApp? || pc.FindArlonApp?
               else pc.CheckClusterApp? || pc.ReadClusterApp? || pc.FindClusterApp?
      modifies this`w, this`clock, this`log, this`pc, this`seen, this`fault
      ensures Valid() && Called(old(pc), ok)
      ensures ok ==> app == if name.ArlonAppName? then seen.arlonApp else seen.clusterApp
    {
      hide Trace, Run, Envs;
      var fate := Await();
      ok, app := fate == Fine, if name.ArlonAppName? then w.arlonApp else w.clusterApp;
      Answered(pc);
    }

    method CreateApp(name: AppName, app: App) returns (ok: bool)
      requires Valid()
      requires if name.ArlonAppName? then pc.CreateArlonApp? && app == ConstructArlonApp(pc.cl)
               else pc.CreateClusterApp? && app == ConstructClusterApp(pc.cl)
      modifies this`w, this`clock, this`log, this`pc, this`seen, this`fault
      ensures Valid() && Called(old(pc), ok)
    {
      hide Trace, Run, Envs;
      var fate := Await();
      var exists_ := if name.ArlonAppName? then w.arlonApp.Some? else w.clusterApp.Some?;
      ok := fate == Fine && !exists_;
      if fate != Lost && !exists_ {
        w := if name.ArlonAppName? then w.(arlonApp := Some(app)) else w.(clusterApp := Some(app));
      }
      Answered(pc);
    }

    method UpdateApp(app: App) returns (ok: bool)
      requires Valid() && pc.UpdateClusterApp? && pc.app == app
      modifies this`w, this`clock, this`log, this`pc, this`seen, this`fault
      ensures Valid() && Called(old(pc), ok)
    {
      hide Trace, Run, Envs;
      var fate := Await();
      ok := fate == Fine && w.clusterApp.Some?;
      if fate != Lost && w.clusterApp.Some? {
        w := w.(clusterApp := Some(w.clusterApp.value.(annotations := app.annotations)));
      }
      Answered(pc);
    }

    method DeleteApp(name: AppName) returns (ok: bool)
      requires Valid() && if name.ArlonAppName? then pc.DeleteArlonApp? else pc.DeleteClusterApp?
      modifies this`w, this`clock, this`log, this`pc, this`seen, this`fault
      ensures Valid() && Called(old(pc), ok)
    {
      hide Trace, Run, Envs;
      var fate := Await();
      ok := fate == Fine && if name.ArlonAppName? then w.arlonApp.Some? else w.clusterApp.Some?;
      if fate != Lost {
        w := if name.ArlonAppName? then w.(arlonApp := MarkDeleted(w.arlonApp))
             else w.(clusterApp := MarkDeleted(w.clusterApp));
      }
      Answered(pc);
    }

    method DeleteOverridesDir(app: App, clusterName: string) returns (ok: bool)
      requires Valid() && pc.DeleteOverride? && app == pc.app && clusterName == pc.cl.name
      modifies this`w, this`clock, this`log, this`pc, this`seen, this`fault
      ensures Valid() && Called(old(pc), ok)
    {
      hide Trace, Run, Envs;
      var fate := Await();
      var key, how := RecordedKey(app, clusterName), Removal(w, app, clusterName);
      ok := fate == Fine && key in w.git && !how.Refuses?;
      if fate != Lost && key in w.git && how.Removes? {
        w := w.(git := w.git - {key});
      }
      Answered(pc);
    }

    /** UpdateState: the state is set in memory, then the status is written. */
    method UpdateState(cl: Cluster, state: string) returns (ok: bool)
      requires Valid() && pc == Enter(cl, state)
      modifies this`w, this`clock, this`log, this`pc, this`seen, this`fault
      ensures Valid() && pc == Idle
    {
      hide Trace, Run, Envs;
      var status := cl.status.(state := state);
      var fate := Await();
      ok := fate == Fine && w.cr.Some?;
      if fate != Lost && w.cr.Some? {
        w := w.(cr := Some(w.cr.value.(status := status)));
      }
      Answered(pc);
    }

    // ------------------------------------------------------------ Reconcile

    /** Every execution is the machine's run under the ticks it meets, from
        Begin to Idle. Without failures and interference it is the machine's
        Reconcile, with failures alone a round of ClusterProgress. */
    method Reconcile()
      requires Valid() && pc.Idle?
      modifies this
      ensures Valid() && pc.Idle? && clock >= old(clock)
      ensures log == old(log) + [Begin] + Trace(ticks, old(clock), clock)
      ensures Run(State(old(w), Idle), [Begin] + Trace(ticks, old(clock), clock)) == State(w, Idle)
      ensures (forall k | old(clock) <= k < clock :: ticks(k) == Tick([], Fine)) ==>
                w == ClusterMachine.Reconcile(old(w))
      ensures (forall k | old(clock) <= k < clock :: ticks(k).before == []) ==>
                w == ClusterProgress.DoRound(old(w), ClusterProgress.Faulty(Faults(ticks, old(clock), clock)))
      ensures Initial(origin.w) && origin.pc.Idle? ==> ClusterSafety.Safe(w)
    {
      ghost var s := State(w, Idle);
      Record(Begin);
      pc := ReadCluster;
      prefix, since := log, clock;
      ReconcileResource();
      ghost var trace := Trace(ticks, since, clock);
      ClusterProgress.RunAppend(origin, old(log), [Begin] + trace);
      assert log == old(log) + ([Begin] + trace);
      ClusterProgress.RunAppend(s, [Begin], trace);
      assert Run(s, [Begin]) == Run(Next(s, Begin), []) == State(old(w), ReadCluster);
      if forall k | old(clock) <= k < clock :: ticks(k) == Tick([], Fine) {
        CleanTrace(State(old(w), ReadCluster), ticks, old(clock), clock);
      }
      if forall k | old(clock) <= k < clock :: ticks(k).before == [] {
        UndisturbedRound(old(w), w, ticks, old(clock), clock);
      }
      if Initial(origin.w) && origin.pc.Idle? {
        ClusterSafety.Safety(origin.w, log);
      }
    }

    method ReconcileResource()
      requires Valid() && pc.ReadCluster?
      modifies this`w, this`clock, this`log, this`pc, this`seen, this`fault
      ensures Valid() && pc.Idle?
    {
      hide Run, RecordedKey, WrittenKey, ConstructClusterApp, ConstructArlonApp, SyncedApp, MarkDeleted, WithStatus;
      var ok, found := ReadResource();
      if !ok || found.None? {
        return;
      }
      var cl := found.value;
      ok := NewApplicationClient();
      if !ok {
        ok := UpdateState(cl, "retrying");
        return;
      }
      if cl.deleting {
        ReconcileDelete(cl);
        return;
      }
      if !cl.finalizer {
        ok := PatchFinalizer(true);
        return;
      }
      if cl.status.innerClusterName == "" {
        var innerClusterName;
        ok, innerClusterName := ValidateGitDir();
        if !ok {
          ok := UpdateState(cl, "retrying");
          return;
        }
        cl := cl.(status := cl.status.(innerClusterName := innerClusterName));
        ok := UpdateState(cl, "template-validated");
        return;
      }
      if cl.spec.override_.Some? {
        if !cl.status.overrideSuccessful {
          ok := CreatePatchDir(cl);
          if !ok {
            ok := UpdateState(cl, "retrying");
            return;
          }
          cl := cl.(status := cl.status.(overrideSuccessful := true));
          ok := UpdateState(cl, "override-created");
          return;
        }
      }
      ReconcileApps(cl);
    }

    method ReconcileApps(cl: Cluster)
      requires Valid() && pc == ReadArlonApp(cl)
      modifies this`w, this`clock, this`log, this`pc, this`seen, this`fault
      ensures Valid() && pc.Idle?
    {
      hide Run, RecordedKey, WrittenKey, SyncedApp, MarkDeleted, WithStatus;
      var ok, arlonApp := GetApp(ArlonAppName);
      if !ok {
        ok := UpdateState(cl, "retrying");
        return;
      }
      if arlonApp.None? {
        // cluster.Create: its guard looks at the cluster app's name
        var clusterApp;
        ok, clusterApp := GetApp(ClusterAppName);
        if !ok || clusterApp.Some? {
          ok := UpdateState(cl, "retrying");
          return;
        }
        ok := CreateApp(ArlonAppName, ConstructArlonApp(cl));
        if !ok {
          ok := UpdateState(cl, "retrying");
          return;
        }
      }
      ReconcileClusterApp(cl);
    }

    method ReconcileClusterApp(cl: Cluster)
      requires Valid() && pc == ReadClusterApp(cl)
      modifies this`w, this`clock, this`log, this`pc, this`seen, this`fault
      ensures Valid() && pc.Idle?
    {
      hide Run, RecordedKey, WrittenKey, ConstructClusterApp, ConstructArlonApp, MarkDeleted, WithStatus, SyncedApp;
      var ok, clusterApp := GetApp(ClusterAppName);
      if !ok {
        ok := UpdateState(cl, "retrying");
        return;
      }
      if clusterApp.None? {
        ok := CreateApp(ClusterAppName, ConstructClusterApp(cl));
        if !ok {
          ok := UpdateState(cl, "retrying");
          return;
        }
        ok := UpdateState(cl, "created");
        return;
      }
      var app, sync := SyncProfiles(cl, clusterApp.value);
      if sync {
        ok := UpdateApp(app);
        if !ok {
          ok := UpdateState(cl, "retrying");
          return;
        }
      }
      if cl.status.state != "created" {
        ok := UpdateState(cl, "created");
      }
    }

    method ReconcileDelete(cr: Cluster)
      requires Valid() && pc == FindClusterApp(cr)
      modifies this`w, this`clock, this`log, this`pc, this`seen, this`fault
      ensures Valid() && pc.Idle?
    {
      hide Run, RecordedKey, WrittenKey, ConstructClusterApp, ConstructArlonApp, SyncedApp, MarkDeleted, WithStatus;
      var ok, clusterApp := GetApp(ClusterAppName);
      if !ok {
        ok := UpdateState(cr, "delete-retrying");
        return;
      }
      if clusterApp.Some? {
        if cr.spec.override_.Some? && cr.status.overrideSuccessful {
          ReconcileOverride(cr, clusterApp.value);
          return;
        }
        if clusterApp.value.deleting {
          return;
        }
        ok := DeleteApp(ClusterAppName);
        if !ok {
          ok := UpdateState(cr, "error-deleting-cluster-app");
          return;
        }
        ok := UpdateState(cr, "deleting-cluster-app");
        return;
      }
      ReleaseResource(cr);
    }

    method ReconcileOverride(cr: Cluster, clusterApp: App)
      requires Valid() && pc == DeleteOverride(cr, clusterApp)
      modifies this`w, this`clock, this`log, this`pc, this`seen, this`fault
      ensures Valid() && pc.Idle?
    {
      hide Run, RecordedKey, WrittenKey, ConstructClusterApp, ConstructArlonApp, SyncedApp, MarkDeleted, WithStatus;
      var ok := DeleteOverridesDir(clusterApp, cr.name);
      if !ok {
        ok := UpdateState(cr, "error-deleting-override");
        return;
      }
      // the override no longer needs deletion
      var flipped := cr.(status := cr.status.(overrideSuccessful := false));
      ok := UpdateState(flipped, "override-deleted");
    }

    method ReleaseResource(cr: Cluster)
      requires Valid() && pc == FindArlonApp(cr)
      modifies this`w, this`clock, this`log, this`pc, this`seen, this`fault
      ensures Valid() && pc.Idle?
    {
      hide Run, RecordedKey, WrittenKey, ConstructClusterApp, ConstructArlonApp, SyncedApp, MarkDeleted, WithStatus;
      var ok, arlonApp := GetApp(ArlonAppName);
      if !ok {
        ok := UpdateState(cr, "delete-retrying");
        return;
      }
      if arlonApp.Some? {
        if arlonApp.value.deleting {
          return;
        }
        ok := DeleteApp(ArlonAppName);
        if !ok {
          ok := UpdateState(cr, "error-deleting-arlon-app");
          return;
        }
        ok := UpdateState(cr, "deleting-arlon-app");
        return;
      }
      ok := PatchFinalizer(false);
    }
  }
}
