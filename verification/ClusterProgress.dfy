/** Creation and deletion make progress: measures that failures never raise and
    that failure-free reconciles lower, and the exact case in which deletion
    gets stuck. */
module ClusterProgress {
  import opened Wrappers
  import opened ClusterMachine
  import opened ClusterSafety

  // ------------------------------------------------------------ creation

  function Flag(b: bool): nat {
    if b then 1 else 0
  }

  /** What is still missing of a resource that is not being deleted. */
  function Missing(w: World): nat
    requires w.cr.Some?
  {
    var cl := w.cr.value;
    Flag(!cl.finalizer) + Flag(cl.status.innerClusterName == "")
    + Flag(cl.spec.override_.Some? && !cl.status.overrideSuccessful)
    + Flag(w.arlonApp.None?) + Flag(w.clusterApp.None?)
    + Flag(w.clusterApp.None? || SyncedApp(cl, w.clusterApp.value).Some?)
  }

  /** Nothing is missing and the status says so. */
  ghost predicate AtRest(w: World) {
    w.cr.Some? && !w.cr.value.deleting && Missing(w) == 0 && w.cr.value.status.state == "created"
  }

  ghost predicate Live(w: World) {
    WorldInv(w) && w.cr.Some? && !w.cr.value.deleting
  }

  predicate IsRead(pc: Pc) {
    pc.ReadCluster? || pc.Connect? || pc.ReadArlonApp? || pc.CheckClusterApp? || pc.ReadClusterApp?
    || pc.ValidateTemplate? || pc.FindClusterApp? || pc.FindArlonApp?
  }

  /** The failure-free reconcile from s only reads. */
  predicate OnlyReads(s: State)
    decreases CallsLeft(s.pc)
  {
    s.pc.Idle? || (IsRead(s.pc) && OnlyReads(DoCall(s, Fine)))
  }

  /** The first calls of every failure-free reconcile. */
  lemma {:induction false} Opening(w: World)
    requires w.cr.Some?
    ensures Reconcile(w) == Settle(State(w, Dispatch(w.cr.value))).w
    ensures OnlyReads(State(w, ReadCluster)) == OnlyReads(State(w, Dispatch(w.cr.value)))
  {
    var s1 := DoCall(State(w, ReadCluster), Fine);
    assert s1 == State(w, Connect(w.cr.value));
    assert Settle(State(w, ReadCluster)) == Settle(s1);
    var s2 := DoCall(s1, Fine);
    assert s2 == State(w, Dispatch(w.cr.value));
    assert Settle(s1) == Settle(s2);
  }

  lemma {:induction false} Written(w: World, cl: Cluster)
    ensures Settle(State(w, WriteStatus(cl))) == State(WithStatus(w, cl.status), Idle)
  {
    var s := State(w, WriteStatus(cl));
    assert Settle(s) == Settle(DoCall(s, Fine));
  }

  lemma {:induction false} AfterSyncSettles(w: World)
    requires w.cr.Some?
    ensures var cl := w.cr.value;
            Settle(State(w, AfterSync(cl))).w
            == WithStatus(w, cl.status.(state := "created"))
  {
    var cl := w.cr.value;
    Written(w, cl.(status := cl.status.(state := "created")));
    if cl.status.state == "created" {
      assert cl.status.(state := "created") == cl.status;
      assert WithStatus(w, cl.status) == w;
    }
  }

  /** The part of a failure-free reconcile that deals with the two apps. */
  lemma {:induction false} AppsSettle(w: World)
    requires Live(w) && Prepared(w.cr.value, w) && Dispatch(w.cr.value) == ReadArlonApp(w.cr.value)
    ensures var w' := Settle(State(w, ReadArlonApp(w.cr.value))).w;
            && w'.cr == Some(w.cr.value.(status := w.cr.value.status.(state := "created")))
            && w'.git == w.git && w'.templateName == w.templateName && w'.absoluteRemove == w.absoluteRemove
            && w'.arlonApp == (if w.arlonApp.Some? then w.arlonApp else Some(ConstructArlonApp(w.cr.value)))
            && w'.clusterApp == (
                 if w.clusterApp.None? then Some(ConstructClusterApp(w.cr.value))
                 else if SyncedApp(w.cr.value, w.clusterApp.value).Some?
                 then SyncedApp(w.cr.value, w.clusterApp.value)
                 else w.clusterApp)
  {
    var cl := w.cr.value;
    var s3 := State(w, ReadArlonApp(cl));
    var s4 := DoCall(s3, Fine);
    assert Settle(s3) == Settle(s4);
    var w1 := w;
    if w.arlonApp.None? {
      var s5 := DoCall(s4, Fine);
      assert s4 == State(w, CheckClusterApp(cl)) && Settle(s4) == Settle(s5);
      w1 := w.(arlonApp := Some(ConstructArlonApp(cl)));
      assert s5 == State(w, CreateArlonApp(cl));
      assert DoCall(s5, Fine) == State(w1, ReadClusterApp(cl));
      assert Settle(s5) == Settle(State(w1, ReadClusterApp(cl)));
    }
    var s6 := State(w1, ReadClusterApp(cl));
    assert Settle(s3) == Settle(s6);
    ClusterAppSettles(w1);
  }

  lemma {:induction false} ClusterAppSettles(w: World)
    requires w.cr.Some?
    ensures var cl := w.cr.value;
            Settle(State(w, ReadClusterApp(cl))).w
            == w.(cr := Some(cl.(status := cl.status.(state := "created"))),
                  clusterApp :=
                    if w.clusterApp.None? then Some(ConstructClusterApp(cl))
                    else if SyncedApp(cl, w.clusterApp.value).Some? then SyncedApp(cl, w.clusterApp.value)
                    else w.clusterApp)
  {
    var cl := w.cr.value;
    var s6 := State(w, ReadClusterApp(cl));
    var s7 := DoCall(s6, Fine);
    assert Settle(s6) == Settle(s7);
    if w.clusterApp.None? {
      var w2 := w.(clusterApp := Some(ConstructClusterApp(cl)));
      var done := cl.(status := cl.status.(state := "created"));
      assert DoCall(s7, Fine) == State(w2, WriteStatus(done)) && Settle(s7) == Settle(State(w2, WriteStatus(done)));
      Written(w2, done);
    } else if SyncedApp(cl, w.clusterApp.value).Some? {
      var w2 := w.(clusterApp := SyncedApp(cl, w.clusterApp.value));
      assert DoCall(s7, Fine) == State(w2, AfterSync(cl)) && Settle(s7) == Settle(State(w2, AfterSync(cl)));
      AfterSyncSettles(w2);
    } else {
      assert s7 == State(w, AfterSync(cl));
      AfterSyncSettles(w);
    }
  }

  lemma SyncIsStable(cl: Cluster, cl': Cluster, app: App)
    requires SyncedApp(cl, app).Some? && cl'.annotations == cl.annotations
    ensures SyncedApp(cl', SyncedApp(cl, app).value).None?
  {
  }

  /** The steps before the apps: each supplies one missing thing. */
  lemma SetupStep(w: World)
    requires Live(w) && !Dispatch(w.cr.value).ReadArlonApp?
    ensures Reconcile(w).cr.Some? && !Reconcile(w).cr.value.deleting && Missing(Reconcile(w)) < Missing(w)
    // the finalizer first, then the template's name, then the override
    ensures var cl, cl' := w.cr.value, Reconcile(w).cr.value;
            if !cl.finalizer then cl' == cl.(finalizer := true)
            else if cl.status.innerClusterName == ""
            then cl'.status == Status("template-validated", w.templateName, cl.status.overrideSuccessful)
            else cl'.status == Status("override-created", cl.status.innerClusterName, true)
  {
    var cl := w.cr.value;
    Opening(w);
    var s2 := State(w, Dispatch(cl));
    var s3 := DoCall(s2, Fine);
    assert Settle(s2) == Settle(s3);
    if !cl.finalizer {
      assert s3 == State(WithFinalizer(w), Idle);
    } else if cl.status.innerClusterName == "" {
      Written(w, cl.(status := Status("template-validated", w.templateName, cl.status.overrideSuccessful)));
    } else {
      var w1 := w.(git := w.git[WrittenKey(cl) := PatchDir(cl.spec.override_.value.patch, cl.spec.template)]);
      Written(w1, cl.(status := Status("override-created", cl.status.innerClusterName, true)));
    }
  }

  /** The step that deals with the apps: a new cluster app may still lack the
      annotation, which the next step pushes. */
  lemma AppsStep(w: World)
    requires Live(w) && Dispatch(w.cr.value).ReadArlonApp?
    ensures Reconcile(w).cr.Some? && !Reconcile(w).cr.value.deleting
    ensures Missing(w) > 0 ==> Missing(Reconcile(w)) < Missing(w)
    ensures Missing(w) == 0 ==> AtRest(Reconcile(w))
    ensures AtRest(w) ==> Reconcile(w) == w
  {
    Opening(w);
    AppsSettle(w);
    var w', cl := Reconcile(w), w.cr.value;
    if w.clusterApp.Some? && SyncedApp(cl, w.clusterApp.value).Some? {
      SyncIsStable(cl, w'.cr.value, w.clusterApp.value);
    }
    if AtRest(w) {
      assert cl.status.(state := "created") == cl.status;
    }
  }

  lemma {:induction false} RestOnlyReads(w: World)
    requires Live(w) && AtRest(w)
    ensures Dispatch(w.cr.value).ReadArlonApp? && OnlyReads(State(w, ReadCluster))
  {
    Opening(w);
    var cl := w.cr.value;
    var s3 := State(w, ReadClusterApp(cl));
    assert DoCall(State(w, ReadArlonApp(cl)), Fine) == s3 && DoCall(s3, Fine) == State(w, Idle);
    assert OnlyReads(s3);
  }

  /** A failure-free reconcile of a live resource lowers what is missing, or
      finishes when nothing is, or has nothing to do. */
  lemma {:induction false} CreationStep(w: World)
    requires Live(w)
    ensures var w' := Reconcile(w);
            && Live(w')
            && (Missing(w) > 0 ==> Missing(w') < Missing(w))
            && (Missing(w) == 0 ==> AtRest(w'))
            && (AtRest(w) ==> w' == w && OnlyReads(State(w, ReadCluster)))
  {
    SettleKeepsInv(State(w, ReadCluster));
    if Dispatch(w.cr.value).ReadArlonApp? {
      AppsStep(w);
    } else {
      SetupStep(w);
    }
    if AtRest(w) {
      RestOnlyReads(w);
    }
    hide Settle, OnlyReads, DoCall, SyncedApp, Dispatch, Safe;
  }

  lemma {:induction false} Descends(s: State)
    requires !s.pc.Idle?
    ensures CallsLeft(DoCall(s, Fine).pc) < CallsLeft(s.pc)
    ensures Settle(s) == Settle(DoCall(s, Fine))
  {
  }

  lemma {:induction false} SettleKeepsInv(s: State)
    requires Inv(s)
    ensures Inv(Settle(s)) && Settle(s).pc.Idle?
    decreases CallsLeft(s.pc)
  {
    if !s.pc.Idle? {
      var t := DoCall(s, Fine);
      CallKeepsInv(s, Fine);
      Descends(s);
      SettleKeepsInv(t);
    }
  }

  // ------------------------------------------- creation under failures

  /** The controller's copy, where it has one. */
  function Copy(pc: Pc): Option<Cluster> {
    match pc
    case Idle => None
    case ReadCluster => None
    case _ => Some(pc.cl)
  }

  /** Nobody touched the resource since it was read. */
  ghost predicate Steady(s: State) {
    && Inv(s) && Live(s.w)
    && (Copy(s.pc).Some? ==>
          var cl, cr := Copy(s.pc).value, s.w.cr.value;
          && cl.annotations == cr.annotations
          && (!s.pc.WriteStatus? ==> cl.status == cr.status)
          && (cr.status.innerClusterName != "" ==> cl.status.innerClusterName != "")
          && (cr.status.overrideSuccessful ==> cl.status.overrideSuccessful))
    && (s.pc.UpdateClusterApp? ==> SyncedApp(s.pc.cl, s.w.clusterApp.value) == Some(s.pc.app))
  }

  lemma ReadsNeverRegress(s: State, fault: Fault)
    requires Steady(s) && Inv(DoCall(s, fault)) && IsRead(s.pc)
    ensures Steady(DoCall(s, fault)) && DoCall(s, fault).w == s.w
  {
  }

  lemma AppWritesNeverRegress(s: State, fault: Fault)
    requires Steady(s) && Inv(DoCall(s, fault))
    requires s.pc.CreateArlonApp? || s.pc.CreateClusterApp? || s.pc.UpdateClusterApp?
    ensures Steady(DoCall(s, fault)) && Missing(DoCall(s, fault).w) <= Missing(s.w)
  {
    if s.pc.UpdateClusterApp? {
      SyncIsStable(s.pc.cl, s.w.cr.value, s.w.clusterApp.value);
    }
  }

  lemma ResourceWritesNeverRegress(s: State, fault: Fault)
    requires Steady(s) && Inv(DoCall(s, fault))
    requires s.pc.AddFinalizer? || s.pc.DeployPatch? || s.pc.WriteStatus?
    ensures Steady(DoCall(s, fault)) && Missing(DoCall(s, fault).w) <= Missing(s.w)
  {
  }

  /** Failures never raise what is missing, whatever call they hit. */
  lemma CallsNeverRegress(s: State, fault: Fault)
    requires Steady(s) && !s.pc.Idle?
    ensures Steady(DoCall(s, fault)) && Missing(DoCall(s, fault).w) <= Missing(s.w)
  {
    CallKeepsInv(s, fault);
    hide Inv, Missing, DoCall;
    if IsRead(s.pc) {
      ReadsNeverRegress(s, fault);
    } else if s.pc.CreateArlonApp? || s.pc.CreateClusterApp? || s.pc.UpdateClusterApp? {
      AppWritesNeverRegress(s, fault);
    } else {
      ResourceWritesNeverRegress(s, fault);
    }
  }

  function Calls(faults: seq<Fault>): seq<Action> {
    seq(|faults|, i requires 0 <= i < |faults| => Call(faults[i]))
  }

  /** One reconcile as the user sees it: without any failure, or with any
      failures and cut short anywhere. */
  datatype Round = Clean | Faulty(faults: seq<Fault>)

  function DoRound(w: World, r: Round): World {
    match r
    case Clean => Reconcile(w)
    case Faulty(faults) => Run(State(w, Idle), [Begin] + Calls(faults) + [Crash]).w
  }

  function DoRounds(w: World, rounds: seq<Round>): World
    decreases |rounds|
  {
    if rounds == [] then w else DoRounds(DoRound(w, rounds[0]), rounds[1..])
  }

  function CleanRounds(rounds: seq<Round>): nat {
    if rounds == [] then 0 else Flag(rounds[0].Clean?) + CleanRounds(rounds[1..])
  }

  lemma {:induction false} RunAppend(s: State, a: seq<Action>, b: seq<Action>)
    ensures Run(s, a + b) == Run(Run(s, a), b)
    decreases |a|
  {
    if a == [] {
      assert a + b == b;
    } else {
      assert (a + b)[1..] == a[1..] + b;
      RunAppend(Next(s, a[0]), a[1..], b);
    }
  }

  lemma {:induction false} FaultyCalls(s: State, faults: seq<Fault>)
    requires Steady(s)
    ensures var t := Run(s, Calls(faults)); Steady(t) && Missing(t.w) <= Missing(s.w)
    decreases |faults|
  {
    if faults != [] {
      var next := Next(s, Call(faults[0]));
      if !s.pc.Idle? {
        CallsNeverRegress(s, faults[0]);
      }
      FaultyCalls(next, faults[1..]);
      assert Calls(faults)[1..] == Calls(faults[1..]);
    }
  }

  lemma RoundsNeverRegress(w: World, r: Round)
    requires Live(w)
    ensures Live(DoRound(w, r)) && Missing(DoRound(w, r)) <= Missing(w)
  {
    match r
    case Clean => CreationStep(w);
    case Faulty(faults) =>
      var s := State(w, Idle);
      RunAppend(s, [Begin], Calls(faults) + [Crash]);
      assert [Begin] + (Calls(faults) + [Crash]) == [Begin] + Calls(faults) + [Crash];
      assert Run(s, [Begin]) == Run(Next(s, Begin), []) == State(w, ReadCluster);
      RunAppend(State(w, ReadCluster), Calls(faults), [Crash]);
      FaultyCalls(State(w, ReadCluster), faults);
      var t := Run(State(w, ReadCluster), Calls(faults));
      assert Run(t, [Crash]) == Run(Next(t, Crash), []) == State(t.w, Idle);
  }

  lemma {:induction false} CleanRoundsCount(w: World, rounds: seq<Round>)
    requires Live(w)
    ensures var w' := DoRounds(w, rounds);
            Live(w') && (Missing(w') == 0 || Missing(w') + CleanRounds(rounds) <= Missing(w))
    decreases |rounds|
  {
    if rounds != [] {
      RoundsNeverRegress(w, rounds[0]);
      if rounds[0].Clean? {
        CreationStep(w);
      }
      CleanRoundsCount(DoRound(w, rounds[0]), rounds[1..]);
    }
  }

  lemma {:induction false} RoundsAppend(w: World, rounds: seq<Round>, last: Round)
    ensures DoRounds(w, rounds + [last]) == DoRound(DoRounds(w, rounds), last)
    ensures CleanRounds(rounds + [last]) == CleanRounds(rounds) + Flag(last.Clean?)
    decreases |rounds|
  {
    if rounds == [] {
      assert DoRounds(DoRound(w, last), []) == DoRound(w, last);
    } else {
      assert (rounds + [last])[1..] == rounds[1..] + [last];
      RoundsAppend(DoRound(w, rounds[0]), rounds[1..], last);
    }
  }

  /** Creation progress: however reconciles fail in between, as many clean ones
      as things missing, and one more, end at rest. */
  lemma {:induction false} CreationConverges(w: World, rounds: seq<Round>)
    requires Live(w) && CleanRounds(rounds) >= Missing(w)
    ensures AtRest(DoRounds(w, rounds + [Clean]))
  {
    CleanRoundsCount(w, rounds);
    RoundsAppend(w, rounds, Clean);
    CreationStep(DoRounds(w, rounds));
  }

  /** What a failing call leads to: the state to be reported, the rest of the
      copy as it was - or nothing, for the calls whose error is returned as is. */
  lemma FailuresAreReported(pc: Pc, w: World)
    ensures var pc' := Continue(pc, w, false);
            match pc
            case Connect(cl) => Reports(pc', cl, "retrying")
            case ValidateTemplate(cl) => Reports(pc', cl, "retrying")
            case DeployPatch(cl) => Reports(pc', cl, "retrying")
            case ReadArlonApp(cl) => Reports(pc', cl, "retrying")
            case CheckClusterApp(cl) => Reports(pc', cl, "retrying")
            case CreateArlonApp(cl) => Reports(pc', cl, "retrying")
            case ReadClusterApp(cl) => Reports(pc', cl, "retrying")
            case CreateClusterApp(cl) => Reports(pc', cl, "retrying")
            case UpdateClusterApp(cl, _) => Reports(pc', cl, "retrying")
            case FindClusterApp(cl) => Reports(pc', cl, "delete-retrying")
            case FindArlonApp(cl) => Reports(pc', cl, "delete-retrying")
            case DeleteOverride(cl, _) => Reports(pc', cl, "error-deleting-override")
            case DeleteClusterApp(cl) => Reports(pc', cl, "error-deleting-cluster-app")
            case DeleteArlonApp(cl) => Reports(pc', cl, "error-deleting-arlon-app")
            case _ => pc'.Idle?
  {
  }

  predicate Reports(pc: Pc, cl: Cluster, state: string) {
    pc.WriteStatus? && pc.cl == cl.(status := cl.status.(state := state))
  }

  /** The arlon app alone is missing from a live resource. */
  ghost predicate Orphaned(s: State) {
    && s.w.arlonApp.None? && s.w.clusterApp.Some? && !s.w.clusterApp.value.deleting
    && (s.w.cr.Some? ==> !s.w.cr.value.deleting)
    && (Copy(s.pc).Some? ==> !Copy(s.pc).value.deleting)
    && match s.pc
       case Idle => true
       case ReadCluster => true
       case Connect(_) => true
       case AddFinalizer(_) => true
       case ValidateTemplate(_) => true
       case DeployPatch(_) => true
       case ReadArlonApp(_) => true
       case CheckClusterApp(_) => true
       case WriteStatus(_) => true
       case _ => false
  }

  /** The guard in cluster.Create tests the cluster app's name: if the arlon app
      alone was removed behind the controller's back, no run of anything short
      of a deletion request re-creates it. */
  lemma {:induction false} GuardBlocksRecreation(s: State, actions: seq<Action>)
    requires Orphaned(s) && Env(RequestDeletion) !in actions
    ensures Orphaned(Run(s, actions)) && Run(s, actions).w.arlonApp.None?
    decreases |actions|
  {
    if actions != [] {
      StaysOrphaned(s, actions[0]);
      GuardBlocksRecreation(Next(s, actions[0]), actions[1..]);
    }
  }

  lemma StaysOrphaned(s: State, a: Action)
    requires Orphaned(s) && a != Env(RequestDeletion)
    ensures Orphaned(Next(s, a))
  {
    hide SyncedApp, ConstructArlonApp, ConstructClusterApp, WrittenKey, RecordedKey;
  }

  /** Exactly when a failure-free reconcile re-creates a missing arlon app:
      when the cluster app is missing too. */
  lemma RecreatedIff(w: World)
    requires w.cr.Some? && Dispatch(w.cr.value) == ReadArlonApp(w.cr.value) && w.arlonApp.None?
    ensures Reconcile(w).arlonApp.Some? <==> w.clusterApp.None?
    ensures w.clusterApp.None? ==> Reconcile(w).arlonApp == Some(ConstructArlonApp(w.cr.value))
  {
    var cl := w.cr.value;
    if w.clusterApp.Some? {
      OrphanRetries(w);
    } else {
      Opening(w);
      var w1 := w.(arlonApp := Some(ConstructArlonApp(cl)));
      Descends(State(w, ReadArlonApp(cl)));
      Descends(State(w, CheckClusterApp(cl)));
      Descends(State(w, CreateArlonApp(cl)));
      assert DoCall(State(w, ReadArlonApp(cl)), Fine) == State(w, CheckClusterApp(cl));
      assert DoCall(State(w, CheckClusterApp(cl)), Fine) == State(w, CreateArlonApp(cl));
      assert DoCall(State(w, CreateArlonApp(cl)), Fine) == State(w1, ReadClusterApp(cl));
      ClusterAppSettles(w1);
    }
  }

  /** With the cluster app there, it only reports "retrying". */
  lemma OrphanRetries(w: World)
    requires w.cr.Some? && Dispatch(w.cr.value) == ReadArlonApp(w.cr.value)
    requires w.arlonApp.None? && w.clusterApp.Some?
    ensures Reconcile(w) == WithStatus(w, w.cr.value.status.(state := "retrying"))
  {
    var cl := w.cr.value;
    Opening(w);
    var s3 := State(w, ReadArlonApp(cl));
    var s4 := State(w, CheckClusterApp(cl));
    assert DoCall(s3, Fine) == s4 && Settle(s3) == Settle(s4);
    var retry := cl.(status := cl.status.(state := "retrying"));
    assert DoCall(s4, Fine) == State(w, WriteStatus(retry)) && Settle(s4) == Settle(State(w, WriteStatus(retry)));
    Written(w, retry);
  }
}
