/** Deletion: the measure it runs down, and the exact case in which it is
    stuck for good. */
module ClusterTeardown {
  import opened Wrappers
  import opened ClusterMachine
  import opened ClusterSafety
  import opened ClusterProgress
  import GoPath

  /** A resource under deletion, between reconciles. */
  ghost predicate Ending(w: World) {
    WorldInv(w) && w.cr.Some? && w.cr.value.deleting
  }

  /** An override directory that the controller still has to delete. */
  predicate OwesOverride(w: World)
    requires w.cr.Some?
  {
    w.clusterApp.Some? && w.cr.value.spec.override_.Some? && w.cr.value.status.overrideSuccessful
  }

  /** The recorded directory, and what removing it by its recorded path does. */
  function Owed(w: World): DirKey
    requires w.cr.Some? && OwesOverride(w)
  {
    RecordedKey(w.clusterApp.value, w.cr.value.name)
  }

  function OwedRemoval(w: World): AbsoluteRemove
    requires w.cr.Some? && OwesOverride(w)
  {
    Removal(w, w.clusterApp.value, w.cr.value.name)
  }

  /** The directory it will look for is there and is not refused. Deletion can
      finish iff this holds. */
  predicate Intact(w: World)
    requires w.cr.Some?
  {
    OwesOverride(w) ==> Owed(w) in w.git && !OwedRemoval(w).Refuses?
  }

  /** The repositories after the override was dealt with. */
  function GitAfter(w: World): map<DirKey, PatchDir>
    requires w.cr.Some?
  {
    if OwesOverride(w) && OwedRemoval(w).Removes? then w.git - {Owed(w)} else w.git
  }

  function AppWeight(app: Option<App>): nat {
    if app.None? then 0 else if app.value.deleting then 1 else 2
  }

  /** What deletion still has to do, override directory first. */
  function Remaining(w: World): nat {
    if w.cr.None? then 0
    else 1 + AppWeight(w.arlonApp) + AppWeight(w.clusterApp) + Flag(OwesOverride(w))
  }

  function ArgoFinishes(w: World): World {
    EnvEffect(EnvEffect(w, FinishClusterApp), FinishArlonApp)
  }

  /** A failure-free reconcile of a resource under deletion, in one formula. */
  function Torn(w: World): World
    requires w.cr.Some? && Intact(w)
  {
    var cl := w.cr.value;
    if OwesOverride(w) then
      WithStatus(w.(git := GitAfter(w)),
                 Status("override-deleted", cl.status.innerClusterName, false))
    else if w.clusterApp.Some? then
      if w.clusterApp.value.deleting then w
      else WithStatus(w.(clusterApp := MarkDeleted(w.clusterApp)), cl.status.(state := "deleting-cluster-app"))
    else if w.arlonApp.Some? then
      if w.arlonApp.value.deleting then w
      else WithStatus(w.(arlonApp := MarkDeleted(w.arlonApp)), cl.status.(state := "deleting-arlon-app"))
    else WithoutFinalizer(w)
  }

  lemma ReconcileTears(w: World)
    requires w.cr.Some? && w.cr.value.deleting && Intact(w)
    ensures Reconcile(w) == Torn(w)
  {
    var cl := w.cr.value;
    Opening(w);
    var s2 := State(w, FindClusterApp(cl));
    var s3 := DoCall(s2, Fine);
    Descends(s2);
    if OwesOverride(w) {
      var done := cl.(status := Status("override-deleted", cl.status.innerClusterName, false));
      Descends(s3);
      assert DoCall(s3, Fine) == State(w.(git := GitAfter(w)), WriteStatus(done));
      Written(w.(git := GitAfter(w)), done);
    } else if w.clusterApp.Some? {
      if !w.clusterApp.value.deleting {
        var done := cl.(status := cl.status.(state := "deleting-cluster-app"));
        Descends(s3);
        assert DoCall(s3, Fine) == State(w.(clusterApp := MarkDeleted(w.clusterApp)), WriteStatus(done));
        Written(w.(clusterApp := MarkDeleted(w.clusterApp)), done);
      }
    } else {
      ReleaseTears(w);
    }
  }

  lemma {:induction false} ReleaseTears(w: World)
    requires w.cr.Some? && w.cr.value.deleting && w.clusterApp.None?
    ensures Settle(State(w, FindArlonApp(w.cr.value))).w == Torn(w)
  {
    var cl := w.cr.value;
    var s3 := State(w, FindArlonApp(cl));
    var s4 := DoCall(s3, Fine);
    Descends(s3);
    if w.arlonApp.None? {
      Descends(s4);
      assert DoCall(s4, Fine) == State(WithoutFinalizer(w), Idle);
    } else if !w.arlonApp.value.deleting {
      var done := cl.(status := cl.status.(state := "deleting-arlon-app"));
      Descends(s4);
      assert DoCall(s4, Fine) == State(w.(arlonApp := MarkDeleted(w.arlonApp)), WriteStatus(done));
      Written(w.(arlonApp := MarkDeleted(w.arlonApp)), done);
    }
  }

  /** Deletion progress: a failure-free reconcile does the next thing in the
      order override directory, cluster app, arlon app, finalizer, or waits,
      changing nothing, for a deletion that ArgoCD has yet to finish. */
  lemma TeardownStep(w: World)
    requires Ending(w) && Intact(w)
    ensures var w' := Reconcile(w);
            && WorldInv(w') && (w'.cr.Some? ==> Ending(w') && Intact(w'))
            && (Remaining(w') < Remaining(w)
                || (w' == w && Remaining(ArgoFinishes(w)) < Remaining(w)))
            && w'.git == GitAfter(w) && (w'.cr.Some? ==> !OwesOverride(w'))
            && (OwesOverride(w) ==> w'.clusterApp == w.clusterApp && w'.arlonApp == w.arlonApp)
            && (w'.clusterApp != w.clusterApp ==> !OwesOverride(w) && w'.arlonApp == w.arlonApp)
            && (w'.arlonApp != w.arlonApp ==> w.clusterApp.None?)
            && (w'.cr.None? ==> w.clusterApp.None? && w.arlonApp.None?)
  {
    ReconcileTears(w);
    SettleKeepsInv(State(w, ReadCluster));
  }

  lemma FinishingHelps(w: World)
    requires Ending(w) && Intact(w)
    ensures var w' := ArgoFinishes(w);
            && Ending(w') && Intact(w') && Remaining(w') <= Remaining(w) && w'.git == w.git
            && (OwesOverride(w') ==> OwesOverride(w))
  {
    EnvKeepsInv(State(w, Idle), FinishClusterApp);
    EnvKeepsInv(State(EnvEffect(w, FinishClusterApp), Idle), FinishArlonApp);
  }

  /** Reconcile, then let ArgoCD finish what is pending; n times. */
  function Drain(w: World, n: nat): World
    decreases n
  {
    if n == 0 then w else Drain(ArgoFinishes(Reconcile(w)), n - 1)
  }

  lemma {:induction false} GoneStaysGone(w: World, n: nat)
    requires w.cr.None? && w.arlonApp.None? && w.clusterApp.None?
    ensures Drain(w, n) == w
  {
    if n > 0 {
      Descends(State(w, ReadCluster));
      assert Reconcile(w) == w;
      GoneStaysGone(w, n - 1);
    }
  }

  /** Deletion terminates: after as many rounds as things remain, the resource
      and both apps are gone, and so is the recorded override directory unless
      the git library keeps it. Nothing else is removed. */
  lemma {:induction false} TeardownTerminates(w: World, n: nat)
    requires Ending(w) && Intact(w) && n >= Remaining(w)
    ensures var w' := Drain(w, n);
            && w'.cr.None? && w'.clusterApp.None? && w'.arlonApp.None?
            && w'.git == GitAfter(w)
    decreases n
  {
    TeardownStep(w);
    ReconcileTears(w);
    var w1 := Reconcile(w);
    if w1.cr.None? {
      assert ArgoFinishes(w1) == w1;
      GoneStaysGone(w1, n - 1);
    } else {
      FinishingHelps(w1);
      TeardownTerminates(ArgoFinishes(w1), n - 1);
    }
  }

  // ------------------------------------------- deletion under failures

  /** A resource under deletion that owes no override, or is gone. */
  ghost predicate Clear(w: World) {
    && WorldInv(w)
    && (w.cr.Some? ==> w.cr.value.deleting && !OwesOverride(w))
  }

  /** The same at every call, where the copy knows as much. */
  ghost predicate Winding(s: State) {
    && Inv(s) && Clear(s.w) && !s.pc.DeleteOverride?
    && (Copy(s.pc).Some? ==> Copy(s.pc).value.deleting)
    && (Copy(s.pc).Some? && s.w.cr.Some? ==>
          && Copy(s.pc).value.spec == s.w.cr.value.spec
          && Copy(s.pc).value.status.overrideSuccessful == s.w.cr.value.status.overrideSuccessful)
  }

  lemma WindingReads(s: State, fault: Fault)
    requires Winding(s) && Inv(DoCall(s, fault)) && IsRead(s.pc)
    ensures Winding(DoCall(s, fault)) && DoCall(s, fault).w == s.w
  {
    hide SyncedApp, ConstructArlonApp, ConstructClusterApp, WrittenKey, RecordedKey, Removal, Safe, Remaining;
  }

  /** While deleting, these are the only calls that write. */
  lemma WindingWrites(s: State, fault: Fault)
    requires Winding(s) && Inv(DoCall(s, fault)) && !s.pc.Idle? && !IsRead(s.pc)
    ensures s.pc.WriteStatus? || s.pc.DeleteClusterApp? || s.pc.DeleteArlonApp? || s.pc.RemoveFinalizer?
    ensures Winding(DoCall(s, fault)) && Remaining(DoCall(s, fault).w) <= Remaining(s.w)
  {
    assert s.pc.WriteStatus? || s.pc.DeleteClusterApp? || s.pc.DeleteArlonApp? || s.pc.RemoveFinalizer?;
    hide SyncedApp, ConstructArlonApp, ConstructClusterApp, WrittenKey, RecordedKey, Removal, Safe;
  }

  /** No failing call raises what remains. */
  lemma WindingCalls(s: State, fault: Fault)
    requires Winding(s) && !s.pc.Idle?
    ensures Winding(DoCall(s, fault)) && Remaining(DoCall(s, fault).w) <= Remaining(s.w)
  {
    CallKeepsInv(s, fault);
    hide Inv, DoCall, Remaining, Clear;
    if IsRead(s.pc) {
      WindingReads(s, fault);
    } else {
      WindingWrites(s, fault);
    }
  }

  lemma {:induction false} WindingRun(s: State, faults: seq<Fault>)
    requires Winding(s)
    ensures var t := Run(s, Calls(faults)); Winding(t) && Remaining(t.w) <= Remaining(s.w)
    decreases |faults|
  {
    if faults != [] {
      if !s.pc.Idle? {
        WindingCalls(s, faults[0]);
      }
      WindingRun(Next(s, Call(faults[0])), faults[1..]);
      assert Calls(faults)[1..] == Calls(faults[1..]);
    }
  }

  /** Neither does a reconcile that fails or crashes anywhere. */
  lemma FaultyTeardown(w: World, faults: seq<Fault>)
    requires Clear(w)
    ensures Clear(DoRound(w, Faulty(faults))) && Remaining(DoRound(w, Faulty(faults))) <= Remaining(w)
  {
    var s := State(w, Idle);
    RunAppend(s, [Begin], Calls(faults) + [Crash]);
    assert [Begin] + (Calls(faults) + [Crash]) == [Begin] + Calls(faults) + [Crash];
    assert Run(s, [Begin]) == Run(Next(s, Begin), []) == State(w, ReadCluster);
    RunAppend(State(w, ReadCluster), Calls(faults), [Crash]);
    WindingRun(State(w, ReadCluster), faults);
    var t := Run(State(w, ReadCluster), Calls(faults));
    assert Run(t, [Crash]) == Run(Next(t, Crash), []) == State(t.w, Idle);
  }

  /** Reconciles of either kind, ArgoCD finishing what is pending after each. */
  function DrainRounds(w: World, rounds: seq<Round>): World
    decreases |rounds|
  {
    if rounds == [] then w else DrainRounds(ArgoFinishes(DoRound(w, rounds[0])), rounds[1..])
  }

  lemma ArgoKeepsClear(w: World)
    requires Clear(w)
    ensures Clear(ArgoFinishes(w)) && Remaining(ArgoFinishes(w)) <= Remaining(w)
  {
    EnvKeepsInv(State(w, Idle), FinishClusterApp);
    EnvKeepsInv(State(EnvEffect(w, FinishClusterApp), Idle), FinishArlonApp);
  }

  lemma TeardownRound(w: World, r: Round)
    requires Clear(w)
    ensures var w' := ArgoFinishes(DoRound(w, r));
            && Clear(w') && Remaining(w') <= Remaining(w)
            && (r.Clean? && Remaining(w) > 0 ==> Remaining(w') < Remaining(w))
  {
    match r
    case Faulty(faults) =>
      FaultyTeardown(w, faults);
      ArgoKeepsClear(DoRound(w, r));
    case Clean =>
      if w.cr.Some? {
        TeardownStep(w);
      } else {
        Descends(State(w, ReadCluster));
        assert Reconcile(w) == w;
      }
      ArgoKeepsClear(Reconcile(w));
  }

  /** Deletion under failures: once no override is owed, however reconciles fail
      in between, as many clean ones as things remain end with everything gone. */
  lemma {:induction false} TeardownConverges(w: World, rounds: seq<Round>)
    requires Clear(w) && CleanRounds(rounds) >= Remaining(w)
    ensures var w' := DrainRounds(w, rounds);
            w'.cr.None? && w'.clusterApp.None? && w'.arlonApp.None?
    decreases |rounds|
  {
    if rounds != [] {
      TeardownRound(w, rounds[0]);
      TeardownConverges(ArgoFinishes(DoRound(w, rounds[0])), rounds[1..]);
    }
  }

  // ------------------------------------------------------------ stranded

  /** The override is on record but its directory is not where it is looked for. */
  ghost predicate Stranded(s: State) {
    && s.w.cr.Some? && s.w.cr.value.deleting && s.w.cr.value.finalizer
    && OwesOverride(s.w) && !Intact(s.w) && !s.w.clusterApp.value.deleting
    && match s.pc
       case Idle => true
       case ReadCluster => true
       case Connect(cl) => Tied(cl, s.w)
       case FindClusterApp(cl) => Tied(cl, s.w)
       case WriteStatus(cl) => Tied(cl, s.w)
       case DeleteOverride(cl, app) => Tied(cl, s.w) && app == s.w.clusterApp.value
       case _ => false
  }

  ghost predicate Tied(cl: Cluster, w: World)
    requires w.cr.Some?
  {
    cl.deleting && cl.name == w.cr.value.name && cl.spec == w.cr.value.spec && cl.status.overrideSuccessful
  }

  lemma StrandedStays(s: State, a: Action)
    requires Stranded(s)
    ensures Stranded(Next(s, a))
  {
  }

  /** Once stranded, no run of anything - retries, crashes, ArgoCD, new
      annotations - ever deletes the cluster app or releases the resource. */
  lemma {:induction false} StrandedForever(s: State, actions: seq<Action>)
    requires Stranded(s)
    ensures Stranded(Run(s, actions))
    decreases |actions|
  {
    if actions != [] {
      StrandedStays(s, actions[0]);
      StrandedForever(Next(s, actions[0]), actions[1..]);
    }
  }

  lemma {:induction false} SettleStranded(s: State)
    requires Stranded(s)
    ensures Stranded(Settle(s)) && Settle(s).pc.Idle?
    decreases CallsLeft(s.pc)
  {
    if !s.pc.Idle? {
      StrandedStays(s, Call(Fine));
      Descends(s);
      SettleStranded(DoCall(s, Fine));
    }
  }

  lemma {:induction false} DrainStranded(w: World, n: nat)
    requires Stranded(State(w, Idle))
    ensures Stranded(State(Drain(w, n), Idle))
    decreases n
  {
    if n > 0 {
      SettleStranded(State(w, ReadCluster));
      var w1 := Reconcile(w);
      StrandedStays(State(w1, Idle), Env(FinishClusterApp));
      StrandedStays(State(EnvEffect(w1, FinishClusterApp), Idle), Env(FinishArlonApp));
      DrainStranded(ArgoFinishes(w1), n - 1);
    }
  }

  /** Deletion finishes if and only if the recorded directory is still there. */
  lemma {:induction false} TeardownIffIntact(w: World)
    requires Ending(w)
    ensures (exists n: nat :: Drain(w, n).cr.None?) <==> Intact(w)
  {
    if Intact(w) {
      TeardownTerminates(w, Remaining(w));
      assert Drain(w, Remaining(w)).cr.None?;
    } else {
      assert Stranded(State(w, Idle));
      forall n: nat ensures Drain(w, n).cr.Some? {
        DrainStranded(w, n);
      }
    }
  }

  lemma {:induction false} RunAlong(trace: seq<State>, actions: seq<Action>)
    requires |trace| == |actions| + 1
    requires forall i | 0 <= i < |actions| :: trace[i + 1] == Next(trace[i], actions[i])
    ensures Run(trace[0], actions) == trace[|actions|]
    decreases |actions|
  {
    if actions != [] {
      assert trace[1] == Next(trace[0], actions[0]);
      RunAlong(trace[1..], actions[1..]);
    }
  }

  /** From Begin to the override, on a resource that owes one. */
  lemma {:induction false} ReachOverride(w: World)
    requires Ending(w) && OwesOverride(w)
    ensures Run(State(w, Idle), [Begin, Call(Fine), Call(Fine), Call(Fine)])
         == State(w, DeleteOverride(w.cr.value, w.clusterApp.value))
  {
    hide WorldInv, SyncedApp, ConstructArlonApp, ConstructClusterApp, RecordedKey, WrittenKey;
    var cl := w.cr.value;
    var trace := [State(w, Idle), State(w, ReadCluster), State(w, Connect(cl)), State(w, FindClusterApp(cl)),
                  State(w, DeleteOverride(cl, w.clusterApp.value))];
    RunAlong(trace, [Begin, Call(Fine), Call(Fine), Call(Fine)]);
  }

  /** The directory is dealt with, and the write that records it is lost. */
  lemma {:induction false} LostWrite(w: World)
    requires Ending(w) && OwesOverride(w) && Intact(w)
    ensures Run(State(w, Idle), [Begin, Call(Fine), Call(Fine), Call(Fine), Call(Fine), Call(Lost)])
         == State(w.(git := GitAfter(w)), Idle)
  {
    var cl := w.cr.value;
    var w1 := w.(git := GitAfter(w));
    var done := cl.(status := Status("override-deleted", cl.status.innerClusterName, false));
    var s := State(w, DeleteOverride(cl, w.clusterApp.value));
    assert DoCall(s, Fine) == State(w1, WriteStatus(done));
    assert DoCall(State(w1, WriteStatus(done)), Lost) == State(w1, Idle);
    ReachOverride(w);
    var first, last := [Begin, Call(Fine), Call(Fine), Call(Fine)], [Call(Fine), Call(Lost)];
    RunAppend(State(w, Idle), first, last);
    hide DoCall, WorldInv;
    RunAlong([s, State(w1, WriteStatus(done)), State(w1, Idle)], last);
    assert first + last == [Begin, Call(Fine), Call(Fine), Call(Fine), Call(Fine), Call(Lost)];
  }

  /** One lost status write is enough: if the directory was removed, the record
      of it remains, and the resource can never be released. */
  lemma {:induction false} LostWriteStrands(w: World)
    requires Ending(w) && OwesOverride(w) && Intact(w)
    ensures var s := Run(State(w, Idle), [Begin, Call(Fine), Call(Fine), Call(Fine), Call(Fine), Call(Lost)]);
            && s.pc.Idle? && Ending(s.w)
            && (OwedRemoval(w).Removes? <==> !Intact(s.w))
            && (OwedRemoval(w).Removes? <==> forall n: nat :: Drain(s.w, n).cr.Some?)
  {
    var w1 := w.(git := GitAfter(w));
    LostWrite(w);
    RunKeepsInv(State(w, Idle), [Begin, Call(Fine), Call(Fine), Call(Fine), Call(Fine), Call(Lost)]);
    assert Intact(w1) <==> Owed(w) in w1.git;
    TeardownIffIntact(w1);
  }

  /** A resource without an annotation map strands itself: syncing clears the
      annotations that record where the override directory is. */
  lemma NilAnnotationsStrand(w: World)
    requires Live(w) && AtRest(w) && w.cr.value.annotations.None? && w.cr.value.spec.override_.Some?
    requires GoPath.IsComponent(w.cr.value.name) && DirKey("", "", [w.cr.value.name]) !in w.git
    ensures var w' := EnvEffect(w, RequestDeletion);
            Ending(w') && !Intact(w') && forall n: nat :: Drain(w', n).cr.Some?
  {
    EnvKeepsInv(State(w, Idle), RequestDeletion);
    var w' := EnvEffect(w, RequestDeletion);
    assert w.clusterApp.value.annotations.None?;
    GoPath.SamePlace("", w.cr.value.name);
    assert GoPath.Components("") == [] by {
      assert GoPath.Resolve([], [""], false) == GoPath.Resolve([], [], false);
    }
    assert RecordedPath(w'.clusterApp.value, w'.cr.value.name) == "" + ['/'] + w.cr.value.name;
    assert Owed(w') == DirKey("", "", [w.cr.value.name]);
    TeardownIffIntact(w');
  }

  // ------------------------------------------------------------ records kept

  /** Where the cluster app says the override directory is. */
  ghost predicate Records(app: App, cl: Cluster) {
    var repo := Source(cl);
    && Lookup(app.annotations, URL_KEY) == repo.url && Lookup(app.annotations, REVISION_KEY) == repo.revision
    && Lookup(app.annotations, PATH_KEY) == repo.path
  }

  ghost predicate RecordsKept(s: State) {
    && (s.w.cr.Some? ==>
          && s.w.cr.value.annotations.Some?
          && (s.w.clusterApp.Some? ==> Records(s.w.clusterApp.value, s.w.cr.value)))
    && (Copy(s.pc).Some? ==> Copy(s.pc).value.annotations.Some?)
    && (s.pc.UpdateClusterApp? && s.w.cr.Some? ==> Records(s.pc.app, s.w.cr.value))
  }

  lemma SyncKeepsRecords(cl: Cluster, cr: Cluster, app: App)
    requires cl.annotations.Some? && SyncedApp(cl, app).Some? && Records(app, cr)
    ensures Records(SyncedApp(cl, app).value, cr)
  {
  }

  /** What calls other than creating the cluster app do to names, specs and
      annotations. */
  lemma EffectKeepsMeta(s: State)
    requires !s.pc.CreateClusterApp?
    ensures var w' := Effect(s).0;
            && (w'.cr.Some? ==>
                  && s.w.cr.Some? && w'.cr.value.name == s.w.cr.value.name
                  && w'.cr.value.spec == s.w.cr.value.spec && w'.cr.value.annotations == s.w.cr.value.annotations)
            && (w'.clusterApp.Some? ==>
                  && s.w.clusterApp.Some?
                  && w'.clusterApp.value.annotations
                  == if s.pc.UpdateClusterApp? then s.pc.app.annotations else s.w.clusterApp.value.annotations)
  {
    hide RecordedKey, WrittenKey, ConstructArlonApp;
  }

  lemma ContinueKeepsCopy(pc: Pc, w: World, ok: bool)
    requires !pc.ReadClusterApp?
    ensures var pc' := Continue(pc, w, ok);
            && !pc'.UpdateClusterApp?
            && (Copy(pc').Some? ==>
                  if pc.ReadCluster? then Copy(pc') == w.cr
                  else Copy(pc).Some? && Copy(pc').value.annotations == Copy(pc).value.annotations)
  {
    hide SyncedApp;
  }

  lemma OtherCallsKeepRecords(s: State, fault: Fault)
    requires RecordsKept(s) && !s.pc.ReadClusterApp? && !s.pc.CreateClusterApp?
    ensures RecordsKept(DoCall(s, fault))
  {
    EffectKeepsMeta(s);
    ContinueKeepsCopy(s.pc, s.w, Effect(s).1 && fault == Fine);
    hide Effect, Continue, Lookup, Copy;
  }

  lemma CallKeepsRecords(s: State, fault: Fault)
    requires Inv(s) && RecordsKept(s) && !s.pc.Idle?
    ensures RecordsKept(DoCall(s, fault))
  {
    if s.pc.ReadClusterApp? {
      if s.w.clusterApp.Some? && SyncedApp(s.pc.cl, s.w.clusterApp.value).Some? {
        SyncKeepsRecords(s.pc.cl, s.w.cr.value, s.w.clusterApp.value);
      }
    } else if s.pc.CreateClusterApp? {
      assert Held(s.pc.cl, s.w) && Records(ConstructClusterApp(s.pc.cl), s.w.cr.value);
    } else {
      OtherCallsKeepRecords(s, fault);
    }
    hide Inv, Records, SyncedApp, ConstructClusterApp;
  }

  lemma RecordsStay(s: State, a: Action)
    requires Inv(s) && RecordsKept(s) && a != Env(Annotate(None))
    ensures Inv(Next(s, a)) && RecordsKept(Next(s, a))
  {
    NextKeepsInv(s, a);
    hide Inv, ConstructClusterApp, ConstructArlonApp, SyncedApp, Continue, Effect;
    if a.Call? && !s.pc.Idle? {
      CallKeepsRecords(s, a.fault);
    }
  }

  lemma {:induction false} RunKeepsRecords(s: State, actions: seq<Action>)
    requires Inv(s) && RecordsKept(s) && Env(Annotate(None)) !in actions
    ensures Inv(Run(s, actions)) && RecordsKept(Run(s, actions))
    decreases |actions|
  {
    if actions != [] {
      RecordsStay(s, actions[0]);
      RunKeepsRecords(Next(s, actions[0]), actions[1..]);
    }
  }

  /** Override bases whose recorded path is absolute. */
  predicate AbsoluteBase(cl: Cluster) {
    cl.spec.override_.Some?
    && (cl.spec.override_.value.repo.path == "" || GoPath.Rooted(cl.spec.override_.value.repo.path))
  }

  /** The deployed path is the recorded one, and it leads to the directory that
      was written, for every base. It is also spelled like the written path
      exactly when the base is clean and not "", "." or "/". */
  lemma PathsCoincide(cl: Cluster)
    requires cl.spec.override_.Some? && GoPath.IsComponent(cl.name)
    ensures var app, base := ConstructClusterApp(cl), cl.spec.override_.value.repo.path;
            && RecordedPath(app, cl.name) == app.source.path
            && RecordedKey(app, cl.name) == WrittenKey(cl)
            && WrittenKey(cl).url == app.source.url && WrittenKey(cl).revision == app.source.revision
            && WrittenKey(cl).path == GoPath.Components(base) + [cl.name]
            && app.source.path == base + "/" + cl.name
            && (GoPath.Rooted(app.source.path) <==> AbsoluteBase(cl))
            && (GoPath.Join2(base, cl.name) == app.source.path
                <==> base != "" && base != "." && base != "/" && GoPath.Clean(base) == base)
  {
    var base := cl.spec.override_.value.repo.path;
    GoPath.SamePlace(base, cl.name);
    GoPath.JoinAgrees(base, cl.name);
    assert base + "/" + cl.name == base + ['/'] + cl.name;
  }

  lemma RecordsLead(app: App, cl: Cluster)
    requires Records(app, cl) && cl.spec.override_.Some? && GoPath.IsComponent(cl.name)
    ensures RecordedKey(app, cl.name) == WrittenKey(cl)
    ensures GoPath.Rooted(RecordedPath(app, cl.name)) <==> AbsoluteBase(cl)
  {
    PathsCoincide(cl);
    assert RecordedPath(app, cl.name) == RecordedPath(ConstructClusterApp(cl), cl.name);
  }

  /** What a deletion request will meet in a resource that always had an
      annotation map. */
  function OverrideRemoval(w: World): AbsoluteRemove
    requires w.cr.Some?
  {
    if AbsoluteBase(w.cr.value) then w.absoluteRemove else Removes
  }

  /** Whatever happened before, a resource that always had an annotation map
      can be deleted, whatever its override base - unless it owes an override
      and the git library refuses to remove by an absolute path. Then everything
      goes, the directory that was written included unless the library keeps
      it, and nothing else. */
  lemma {:induction false} AnnotatedTeardown(w: World, actions: seq<Action>)
    requires Initial(w) && GoPath.IsComponent(w.cr.value.name)
    requires w.cr.value.annotations.Some? && Env(Annotate(None)) !in actions
    requires var s := Run(State(w, Idle), actions);
             s.pc.Idle? && s.w.cr.Some? && s.w.cr.value.finalizer && !s.w.cr.value.deleting
    ensures var before := Run(State(w, Idle), actions).w;
            var asked, owes := EnvEffect(before, RequestDeletion), OwesOverride(before);
            var after := Drain(asked, 6);
            && (owes ==> WrittenKey(before.cr.value) in before.git)
            && ((exists n: nat :: Drain(asked, n).cr.None?) <==> !(owes && OverrideRemoval(before).Refuses?))
            && (!(owes && OverrideRemoval(before).Refuses?) ==>
                  && after.cr.None? && after.clusterApp.None? && after.arlonApp.None?
                  && after.git == if owes && OverrideRemoval(before).Removes?
                                  then before.git - {WrittenKey(before.cr.value)} else before.git)
  {
    var s := Run(State(w, Idle), actions);
    RunKeepsInv(State(w, Idle), actions);
    RunKeepsRecords(State(w, Idle), actions);
    RunKeepsIdentity(State(w, Idle), actions);
    var asked := EnvEffect(s.w, RequestDeletion);
    EnvKeepsInv(s, RequestDeletion);
    if OwesOverride(asked) {
      RecordsLead(s.w.clusterApp.value, s.w.cr.value);
      assert Owed(asked) == WrittenKey(s.w.cr.value) && OwedRemoval(asked) == OverrideRemoval(s.w);
    }
    TeardownIffIntact(asked);
    if Intact(asked) {
      TeardownTerminates(asked, 6);
    }
  }

  /** Name and spec never change (spec edits are not part of the model). */
  lemma {:induction false} RunKeepsIdentity(s: State, actions: seq<Action>)
    requires s.w.cr.Some?
    ensures var t := Run(s, actions).w;
            t.cr.Some? ==> t.cr.value.name == s.w.cr.value.name && t.cr.value.spec == s.w.cr.value.spec
    decreases |actions|
  {
    if actions != [] {
      var next := Next(s, actions[0]);
      if next.w.cr.Some? {
        RunKeepsIdentity(next, actions[1..]);
      } else {
        GoneForGood(next, actions[1..]);
      }
    }
  }

  lemma {:induction false} GoneForGood(s: State, actions: seq<Action>)
    requires s.w.cr.None?
    ensures Run(s, actions).w.cr.None?
    decreases |actions|
  {
    if actions != [] {
      GoneForGood(Next(s, actions[0]), actions[1..]);
    }
  }
}
