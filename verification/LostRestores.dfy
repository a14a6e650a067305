/**
 * What lets a restore's clients back in beside it, or cuts it short: the status write lost
 * by the pass that starts it, and databases turned external while it runs.
 */
module LostRestores {
  import opened Basics
  import opened Jobs
  import opened Platform
  import P = PlatformDatabase
  import PR = PlatformRestore
  import D = Database
  import R = Restore

  // ---- a restore nobody follows ----

  /** Status waits for a Job to put its dump back. */
  predicate Follows(restore: Option<R.Status>) {
    R.InProgress(restore).Some? && restore.value.result.Running?
  }

  /** Job n puts a dump back, and is not being deleted. */
  predicate PutsBack(s: State, n: Name) {
    n in s.jobs && PR.Restoring(s.jobs[n]) && !s.jobs[n].deleting
  }

  /** No restore is being waited for, and the request asks for none that can start. */
  predicate Withdrawn(s: State, spec: Spec, copying: bool) {
    && R.InProgress(s.status.restore).None?
    && (|| !spec.database.bundled || spec.restoreRequest == "" || R.DumpOf(spec.restoreRequest).None? || copying
        || (s.status.restore.Some? && s.status.restore.value.request == spec.restoreRequest))
  }

  lemma RendersNoDumpIff(s: State, spec: Spec, plan: D.Plan)
    ensures PlanRestore(s, spec, plan).dump.None? <==> Withdrawn(s, spec, plan.copying)
  {
  }

  /** The pass gets to apply d. */
  ghost predicate Reaches(s: State, spec: Spec, api: Api, d: string) {
    match D.PlanDatabase(spec.database, s.postgres, s.jobs, s.now, api.database)
    case Unknown => false
    case Decided(plan, _) => !api.fault.Deferred? && (!PR.Broken(plan, api) || (api.fault.Apply? && d in api.reached))
  }

  /** The pass scales d up, d being a client of the database: it stops none, or there is nothing to stop it for. */
  ghost predicate ComesBack(s: State, spec: Spec, api: Api, d: string)
    requires d in spec.deployments
  {
    match D.PlanDatabase(spec.database, s.postgres, s.jobs, s.now, api.database)
    case Unknown => false
    case Decided(plan, _) =>
      Reaches(s, spec, api, d) && (!spec.database.bundled || Withdrawn(s, spec, plan.copying)) && spec.deployments[d] > 0
  }

  /** Nothing the render stops has a pod, no backup runs, and there are the backups' claim and the Job to start. */
  predicate WayClear(jobs: Table, pods: map<string, nat>, render: map<string, nat>, api: R.Api) {
    && R.ClientsUp(render, pods, api) == {} && api.backupsListed && Jobs.Running(jobs, Backups(jobs)) == {}
    && api.claim.Present? && api.hook
  }

  /** The pass gets to start a restore. */
  ghost predicate StartsOver(s: State, spec: Spec, api: Api) {
    match D.PlanDatabase(spec.database, s.postgres, s.jobs, s.now, api.database)
    case Unknown => false
    case Decided(plan, _) =>
      && !api.fault.Deferred? && !PR.Broken(plan, api) && !Withdrawn(s, spec, plan.copying) && !Follows(s.status.restore)
      && WayClear(s.jobs, s.pods, Rendered(spec, PlanRestore(s, spec, plan).dump), api.restore)
  }

  predicate NewRestore(before: Table, after: Table, m: Name) {
    m in after && m !in before && after[m].purpose.RestoreJob?
  }

  /** What a step does to an unfinished restore Job that status does not follow: it goes where another may start. */
  lemma StepFate(restore: Option<R.Status>, jobs: Table, pods: map<string, nat>, render: map<string, nat>,
                 scheduled: bool, now: Time, api: R.Api, n: Name)
    requires n in jobs && PR.Restoring(jobs[n]) && !jobs[n].deleting
    ensures var jobs' := R.StepRestore(restore, jobs, pods, render, scheduled, now, api).jobs;
            var starts := R.InProgress(restore).Some? && restore.value.result.Stopping? && WayClear(jobs, pods, render, api);
            && n in jobs' && PR.Restoring(jobs'[n])
            && (jobs'[n].deleting <==> starts && n in api.deletable)
            && ((exists m :: NewRestore(jobs, jobs', m)) <==>
                  starts && AllRestores(jobs) <= api.deletable && api.creates && api.name !in jobs)
  {
    hide R.StepStopping, R.DumpOf, WayClear;
    if R.InProgress(restore).Some? && restore.value.result.Stopping? {
      StoppingFate(restore.value, R.InProgress(restore).value, jobs, pods, render, scheduled, now, api, n);
    }
  }

  lemma StoppingFate(rs: R.Status, dump: string, jobs: Table, pods: map<string, nat>, render: map<string, nat>,
                     scheduled: bool, now: Time, api: R.Api, n: Name)
    requires n in jobs && PR.Restoring(jobs[n]) && !jobs[n].deleting
    ensures var jobs' := R.StepStopping(rs, dump, jobs, pods, render, scheduled, now, api).jobs;
            && n in jobs' && PR.Restoring(jobs'[n])
            && (jobs'[n].deleting <==> WayClear(jobs, pods, render, api) && n in api.deletable)
            && ((exists m :: NewRestore(jobs, jobs', m)) <==>
                  WayClear(jobs, pods, render, api) && AllRestores(jobs) <= api.deletable && api.creates && api.name !in jobs)
  {
    hide R.ClientsUp, Backups, Jobs.Running, R.Stopped, RealmRuns;
    var jobs' := R.StepStopping(rs, dump, jobs, pods, render, scheduled, now, api).jobs;
    assert n in AllRestores(jobs);
    if WayClear(jobs, pods, render, api) && AllRestores(jobs) <= api.deletable && api.creates && api.name !in jobs {
      assert NewRestore(jobs, jobs', api.name);
    }
  }

  // ---- a pass over such a Job ----

  lemma FinishFate(s: State, spec: Spec, plan: D.Plan, planned: R.Planned, api: Api, n: Name)
    requires PutsBack(s, n) && planned.dump == R.InProgress(planned.restore)
    ensures var jobs' := Finish(s, spec, plan, planned, api).jobs;
            var starts := planned.dump.Some? && planned.restore.value.result.Stopping? && WayClear(s.jobs, s.pods, Rendered(spec, planned.dump), api.restore);
            && n in jobs' && PR.Restoring(jobs'[n])
            && (jobs'[n].deleting <==> starts && n in api.restore.deletable)
            && ((exists m :: NewRestore(s.jobs, jobs', m)) <==>
                  starts && AllRestores(s.jobs) <= api.restore.deletable && api.restore.creates && api.restore.name !in s.jobs)
  {
    hide Finish, StepRestore, R.StepRestore, Rendered, R.InProgress, WayClear, StillScheduled, JobsCopied, NewRestore;
    var copied := JobsCopied(s, spec, plan, planned.dump, api);
    var render := Rendered(spec, planned.dump);
    var stepped := StepRestore(s, spec, plan, planned, api).jobs;
    PR.CopyTouches(s, spec, plan, planned.dump, api);
    PR.StepIs(s, spec, plan, planned, api);
    StepFate(planned.restore, copied, s.pods, render, StillScheduled(s, spec, api), s.now, api.restore, n);
    P.StepRestoreTouches(planned.restore, copied, s.pods, render, StillScheduled(s, spec, api), s.now, api.restore);
    NoCopyUnderDump(s, spec, plan, planned.dump, api);
    if api.fault.Components? { PR.FinishJobs(s, spec, plan, planned, api); } else { PR.RestTouches(s, spec, plan, planned, api); }
    SameNew(s.jobs, copied, stepped, Finish(s, spec, plan, planned, api).jobs);
  }

  lemma NoCopyUnderDump(s: State, spec: Spec, plan: D.Plan, dump: Option<string>, api: Api)
    ensures dump.Some? ==> JobsCopied(s, spec, plan, dump, api) == s.jobs
  {
  }

  /** Only the restore's step makes restore Jobs. */
  lemma SameNew(a: Table, b: Table, c: Table, d: Table)
    requires Touches(a, b, {CopyKind}, {CopyKind}) && Touches(b, c, {RestoreKind}, {RestoreKind, RealmKind})
    requires c == d || Touches(c, d, {RealmKind, VerifyKind}, {RealmKind, VerifyKind})
    ensures (exists m :: NewRestore(a, d, m)) <==> (exists m :: NewRestore(b, c, m))
  {
    if m :| NewRestore(a, d, m) { assert NewRestore(b, c, m); }
    if m :| NewRestore(b, c, m) { assert NewRestore(a, d, m); }
  }

  lemma CarryOutFate(s: State, spec: Spec, plan: D.Plan, api: Api, n: Name)
    requires PutsBack(s, n)
    ensures var jobs' := CarryOut(s, spec, plan, api).jobs;
            var starts := !PR.Broken(plan, api) && !Withdrawn(s, spec, plan.copying) && !Follows(s.status.restore)
                          && WayClear(s.jobs, s.pods, Rendered(spec, PlanRestore(s, spec, plan).dump), api.restore);
            && n in jobs' && PR.Restoring(jobs'[n])
            && (jobs'[n].deleting <==> starts && n in api.restore.deletable)
            && ((exists m :: NewRestore(s.jobs, jobs', m)) <==>
                  starts && AllRestores(s.jobs) <= api.restore.deletable && api.restore.creates && api.restore.name !in s.jobs)
  {
    hide CarryOut, Finish, ApplyAll, ApplySome, Switched, PlanRestore, Rendered, WayClear, Withdrawn, Follows, R.InProgress;
    var planned := PlanRestore(s, spec, plan);
    PR.PlanDump(s, spec, plan);
    RendersNoDumpIff(s, spec, plan);
    PR.SwitchedSame(s, plan);
    PR.ApplySame(Switched(s, plan), spec, plan.volume, planned.dump, api);
    if PR.Broken(plan, api) {
      PR.BreaksOff(s, spec, plan, api);
    } else {
      PR.GoesOn(s, spec, plan, api);
      PlannedStops(s, spec, plan);
      FinishFate(ApplyAll(Switched(s, plan), spec, plan.volume, planned.dump, api), spec, plan, planned, api, n);
    }
  }

  lemma PlannedStops(s: State, spec: Spec, plan: D.Plan)
    ensures var planned := PlanRestore(s, spec, plan);
            planned.dump.Some? ==> planned.restore.Some? && (planned.restore.value.result.Stopping? <==> !Follows(s.status.restore))
  {
  }

  /**
   * An unfinished restore Job is cut short by a pass if and only if that pass gets to
   * start a restore and can delete it; another restore Job is made beside it, as it is
   * deleted, if and only if all the earlier ones can be and creating one succeeds.
   */
  lemma CutShortIff(s: State, spec: Spec, api: Api, n: Name)
    requires PutsBack(s, n)
    ensures var jobs' := Pass(s, spec, api).jobs;
            && n in jobs' && PR.Restoring(jobs'[n])
            && (jobs'[n].deleting <==> StartsOver(s, spec, api) && n in api.restore.deletable)
            && ((exists m :: NewRestore(s.jobs, jobs', m)) <==>
                  StartsOver(s, spec, api) && AllRestores(s.jobs) <= api.restore.deletable
                  && api.restore.creates && api.restore.name !in s.jobs)
  {
    hide CarryOut, D.PlanDatabase, Rendered, R.ClientsUp, Withdrawn, Follows;
    P.PlanTouches(spec.database, s.postgres, s.jobs, s.now, api.database);
    match D.PlanDatabase(spec.database, s.postgres, s.jobs, s.now, api.database)
    case Unknown =>
    case Decided(plan, jobs) =>
      assert AllRestores(jobs) == AllRestores(s.jobs) && Backups(jobs) == Backups(s.jobs);
      assert Jobs.Running(jobs, Backups(jobs)) == Jobs.Running(s.jobs, Backups(s.jobs));
      if !api.fault.Deferred? {
        SamePlanned(s, jobs, spec, plan);
        CarryOutFate(s.(jobs := jobs), spec, plan, api, n);
        var jobs' := Pass(s, spec, api).jobs;
        assert forall m :: NewRestore(jobs, jobs', m) <==> NewRestore(s.jobs, jobs', m);
      }
  }

  lemma SamePlanned(s: State, jobs: Table, spec: Spec, plan: D.Plan)
    ensures PlanRestore(s.(jobs := jobs), spec, plan) == PlanRestore(s, spec, plan)
    ensures Withdrawn(s.(jobs := jobs), spec, plan.copying) == Withdrawn(s, spec, plan.copying)
  {
  }

  lemma CarryOutScales(s: State, spec: Spec, plan: D.Plan, api: Api, d: string)
    requires d in spec.deployments && d in spec.clients && PR.Down(s.replicas, s.pods, d)
    ensures var s' := CarryOut(s, spec, plan, api);
            && s'.pods == s.pods
            && ((d in s'.replicas && s'.replicas[d] > 0) <==>
                  (!PR.Broken(plan, api) || (api.fault.Apply? && d in api.reached))
                  && (!spec.database.bundled || Withdrawn(s, spec, plan.copying)) && spec.deployments[d] > 0)
  {
    hide CarryOut, Finish, Switched, PlanRestore, Withdrawn, R.InProgress;
    var planned := PlanRestore(s, spec, plan);
    RendersNoDumpIff(s, spec, plan);
    PR.SwitchedSame(s, plan);
    if PR.Broken(plan, api) {
      PR.BreaksOff(s, spec, plan, api);
    } else {
      PR.GoesOn(s, spec, plan, api);
      P.FinishStays(ApplyAll(Switched(s, plan), spec, plan.volume, planned.dump, api), spec, plan, planned, api);
    }
  }

  lemma ClientUpIff(s: State, spec: Spec, api: Api, d: string)
    requires d in spec.deployments && d in spec.clients && PR.Down(s.replicas, s.pods, d)
    ensures R.PodsOf(Do(Pass(s, spec, api), PodUp(d)).pods, d) > 0 <==> ComesBack(s, spec, api, d)
  {
    hide CarryOut, D.PlanDatabase, Withdrawn;
    match D.PlanDatabase(spec.database, s.postgres, s.jobs, s.now, api.database)
    case Unknown =>
    case Decided(plan, jobs) =>
      SamePlanned(s, jobs, spec, plan);
      CarryOutScales(s.(jobs := jobs), spec, plan, api, d);
  }

  /**
   * A pod of a client comes beside the unfinished restore if and only if a pass that
   * stops no client gets to scale that one up.
   */
  lemma ClientMeetsIff(s: State, spec: Spec, api: Api, n: Name, d: string)
    requires PutsBack(s, n)
    requires d in spec.deployments && d in spec.clients && PR.Down(s.replicas, s.pods, d)
    ensures var s' := Do(Pass(s, spec, api), PodUp(d));
            && n in s'.jobs && PR.Restoring(s'.jobs[n])
            && (R.PodsOf(s'.pods, d) > 0 <==> ComesBack(s, spec, api, d))
            && (s'.jobs[n].deleting <==> StartsOver(s, spec, api) && n in api.restore.deletable)
  {
    hide Pass, D.PlanDatabase, Withdrawn, WayClear, StartsOver, ComesBack;
    CutShortIff(s, spec, api, n);
    ClientUpIff(s, spec, api, d);
  }

  // ---- the write that decides ----

  /** Whether a pass that gets to its end writes its status. */
  predicate Written(api: Api) {
    !api.fault.Components? && !api.fault.StatusWrite?
  }

  /**
   * The Job a pass starts is followed if and only if the pass writes its status; either
   * way the clients that pass renders are down after it.
   */
  lemma StatusWriteDecides(s: State, spec: Spec, api: Api, n: Name)
    requires PR.Inv(s, spec.clients) && spec.database.bundled
    requires NewRestore(s.jobs, Pass(s, spec, api).jobs, n)
    ensures var s' := Pass(s, spec, api);
            && PutsBack(s', n) && (PR.Inv(s', spec.clients) <==> Written(api)) && (Follows(s'.status.restore) <==> Written(api))
            && forall d | d in spec.deployments && d in spec.clients :: PR.Down(s'.replicas, s'.pods, d)
  {
    hide CarryOut, D.PlanDatabase, PR.AllFollowed, PR.Followed;
    PR.StartsWithAllDown(s, spec, api, n);
    P.PlanTouches(spec.database, s.postgres, s.jobs, s.now, api.database);
    var s' := Pass(s, spec, api);
    if Written(api) {
      PR.PassKeeps(s, spec, api);
      assert PR.AllFollowed(s'.jobs, s'.status.restore, s'.replicas, s'.pods, s'.scheduled, spec.clients);
      IsFollowed(s'.jobs, n, s'.status.restore, s'.replicas, s'.pods, s'.scheduled, spec.clients);
    }
    match D.PlanDatabase(spec.database, s.postgres, s.jobs, s.now, api.database)
    case Unknown =>
    case Decided(plan, jobs) =>
      var s0 := s.(jobs := jobs);
      CarryOutStops(s0, spec, plan, api, n);
      if !Written(api) {
        CarryOutLoses(s0, spec, plan, api, n);
        Unfollowed(s'.jobs, n, s'.status.restore, s'.replicas, s'.pods, s'.scheduled, spec.clients);
      }
  }

  lemma IsFollowed(jobs: Table, n: Name, restore: Option<R.Status>, replicas: map<string, nat>, pods: map<string, nat>,
                   scheduled: bool, clients: set<string>)
    requires n in jobs && PR.Restoring(jobs[n]) && PR.AllFollowed(jobs, restore, replicas, pods, scheduled, clients)
    ensures Follows(restore)
  {
    assert PR.Followed(jobs, n, restore, replicas, pods, scheduled, clients);
  }

  lemma Unfollowed(jobs: Table, n: Name, restore: Option<R.Status>, replicas: map<string, nat>, pods: map<string, nat>,
                   scheduled: bool, clients: set<string>)
    requires n in jobs && PR.Restoring(jobs[n]) && !(restore.Some? && restore.value.result.Running?)
    ensures !PR.AllFollowed(jobs, restore, replicas, pods, scheduled, clients)
  {
    assert !PR.Followed(jobs, n, restore, replicas, pods, scheduled, clients);
  }

  /** A pass that starts a restore has stopped its clients. */
  lemma CarryOutStops(s: State, spec: Spec, plan: D.Plan, api: Api, n: Name)
    requires spec.database.bundled && NewRestore(s.jobs, CarryOut(s, spec, plan, api).jobs, n)
    ensures var s' := CarryOut(s, spec, plan, api);
            && s'.pods == s.pods
            && forall d | d in spec.deployments && d in spec.clients :: d in s'.replicas && s'.replicas[d] == 0
  {
    hide CarryOut, Finish, Switched, PlanRestore, ApplyAll, ApplySome, R.InProgress;
    var planned := PlanRestore(s, spec, plan);
    PR.SwitchedSame(s, plan);
    PR.ApplySame(Switched(s, plan), spec, plan.volume, planned.dump, api);
    if PR.Broken(plan, api) {
      PR.BreaksOff(s, spec, plan, api);
    } else {
      var all := ApplyAll(Switched(s, plan), spec, plan.volume, planned.dump, api);
      PR.GoesOn(s, spec, plan, api);
      PR.FinishStarts(all, spec, plan, planned, api, n);
      PR.PlanDump(s, spec, plan);
      P.FinishStays(all, spec, plan, planned, api);
    }
  }

  lemma CarryOutLoses(s: State, spec: Spec, plan: D.Plan, api: Api, n: Name)
    requires PR.Tallied(s.status.restore, s.restoreJobs) && !Written(api)
    requires NewRestore(s.jobs, CarryOut(s, spec, plan, api).jobs, n)
    ensures var s' := CarryOut(s, spec, plan, api);
            PR.Restoring(s'.jobs[n]) && s'.status.restore == s.status.restore
            && !(s.status.restore.Some? && s.status.restore.value.result.Running?)
  {
    hide Finish, Switched, PlanRestore, Rendered;
    var planned := PlanRestore(s, spec, plan);
    PR.SwitchedSame(s, plan);
    var all := ApplyAll(Switched(s, plan), spec, plan.volume, planned.dump, api);
    assert CarryOut(s, spec, plan, api) == Finish(all, spec, plan, planned, api);
    assert all.jobs == s.jobs && all.status == s.status;
    FinishLoses(all, spec, plan, planned, api, n);
    TakenUpStops(s, spec, plan);
  }

  lemma TakenUpStops(s: State, spec: Spec, plan: D.Plan)
    requires PR.Tallied(s.status.restore, s.restoreJobs)
    ensures var planned := PlanRestore(s, spec, plan);
            planned.restore.Some? && planned.restore.value.result.Stopping? ==>
              !(s.status.restore.Some? && s.status.restore.value.result.Running?)
  {
  }

  lemma FinishLoses(s: State, spec: Spec, plan: D.Plan, planned: R.Planned, api: Api, n: Name)
    requires !Written(api) && NewRestore(s.jobs, Finish(s, spec, plan, planned, api).jobs, n)
    ensures var s' := Finish(s, spec, plan, planned, api); PR.Restoring(s'.jobs[n]) && s'.status == s.status
    ensures planned.restore.Some? && planned.restore.value.result.Stopping?
  {
    hide Finish, StepRestore, JobsCopied, R.StepRestore, Rendered, R.InProgress;
    var copied := JobsCopied(s, spec, plan, planned.dump, api);
    PR.CopyTouches(s, spec, plan, planned.dump, api);
    P.FinishTouches(s, spec, plan, planned, api);
    PR.StepIs(s, spec, plan, planned, api);
    P.StepRestoreTouches(planned.restore, copied, s.pods, Rendered(spec, planned.dump), StillScheduled(s, spec, api), s.now, api.restore);
    if api.fault.Components? { PR.FinishJobs(s, spec, plan, planned, api); } else { PR.RestTouches(s, spec, plan, planned, api); }
    PR.StepStarts(planned.restore, copied, s.pods, Rendered(spec, planned.dump), StillScheduled(s, spec, api), s.now, api.restore, n);
    FinishStatusLost(s, spec, plan, planned, api);
  }

  lemma FinishStatusLost(s: State, spec: Spec, plan: D.Plan, planned: R.Planned, api: Api)
    requires !Written(api)
    ensures Finish(s, spec, plan, planned, api).status == s.status
  {
    hide StepRestore, JobsCopied, ConfigureRealm, Verify;
  }

  /**
   * One more pass after the one that starts restore Job n. A client's pod comes to run
   * beside n, unfinished still, if and only if the second pass gets to scale that client
   * up: because the first lost its status write and the second renders no dump, or because
   * the databases have been turned external.
   */
  lemma ClientMeetsRestoreIff(s: State, spec: Spec, api: Api, n: Name, spec': Spec, api': Api, d: string)
    requires PR.Inv(s, spec.clients) && spec.database.bundled
    requires NewRestore(s.jobs, Pass(s, spec, api).jobs, n)
    requires d in spec.deployments && d in spec.clients && d in spec'.deployments && d in spec'.clients
    ensures var s1 := Pass(s, spec, api);
            var s2 := Do(Pass(s1, spec', api'), PodUp(d));
            && n in s2.jobs && PR.Restoring(s2.jobs[n])
            && (R.PodsOf(s2.pods, d) > 0 <==> (!Written(api) || !spec'.database.bundled) && ComesBack(s1, spec', api', d))
  {
    hide Pass, PR.Inv, PR.Restoring, ComesBack, Withdrawn;
    var s1 := Pass(s, spec, api);
    StatusWriteDecides(s, spec, api, n);
    ClientMeetsIff(s1, spec', api', n, d);
    ComesBackOnlyUnfollowed(s1, spec', api', d);
  }

  lemma ComesBackOnlyUnfollowed(s: State, spec: Spec, api: Api, d: string)
    requires d in spec.deployments
    ensures ComesBack(s, spec, api, d) && spec.database.bundled ==> !Follows(s.status.restore)
  {
    hide D.PlanDatabase;
  }

  /**
   * There n is cut short, and replaced by a second restore Job that finds it still being
   * deleted, if and only if the first pass lost its status write and the second gets to
   * start a restore: one asked for still, or one that status was already waiting to start.
   */
  lemma RestoreCutShortIff(s: State, spec: Spec, api: Api, n: Name, spec': Spec, api': Api)
    requires PR.Inv(s, spec.clients) && spec.database.bundled
    requires NewRestore(s.jobs, Pass(s, spec, api).jobs, n)
    ensures var s1 := Pass(s, spec, api);
            var s2 := Pass(s1, spec', api');
            && n in s2.jobs && PR.Restoring(s2.jobs[n])
            && (s2.jobs[n].deleting <==> !Written(api) && StartsOver(s1, spec', api') && n in api'.restore.deletable)
            && ((exists m :: NewRestore(s1.jobs, s2.jobs, m)) <==>
                  !Written(api) && StartsOver(s1, spec', api') && AllRestores(s1.jobs) <= api'.restore.deletable
                  && api'.restore.creates && api'.restore.name !in s1.jobs)
  {
    hide Pass, PR.Inv, PR.Restoring, D.PlanDatabase, WayClear, Withdrawn, Follows, NewRestore;
    StatusWriteDecides(s, spec, api, n);
    CutShortIff(Pass(s, spec, api), spec', api', n);
  }

  // ---- databases turned external ----

  /**
   * While a restore Job that status follows is unfinished, a pass lets a client it stopped
   * back in beside it if and only if the databases are external in that pass, which gets
   * to apply that client with replicas; the Job goes on either way.
   */
  lemma ExternalMeetsClientIff(s: State, spec: Spec, api: Api, n: Name, d: string)
    requires PR.Inv(s, spec.clients) && n in s.jobs && PR.Restoring(s.jobs[n])
    requires d in s.jobs[n].purpose.stopped && d in spec.clients && d in spec.deployments
    ensures var s' := Do(Pass(s, spec, api), PodUp(d));
            && n in s'.jobs && InFlight(s'.jobs[n])
            && (R.PodsOf(s'.pods, d) > 0 <==>
                  !spec.database.bundled && Reaches(s, spec, api, d) && spec.deployments[d] > 0)
  {
    hide Pass, D.PlanDatabase, Reaches, WayClear, PR.Inv;
    FollowedJob(s, n, spec.clients, d);
    ClientMeetsIff(s, spec, api, n, d);
    ReachesDecided(s, spec, api, d);
  }

  lemma FollowedJob(s: State, n: Name, clients: set<string>, d: string)
    requires PR.Inv(s, clients) && n in s.jobs && PR.Restoring(s.jobs[n]) && d in s.jobs[n].purpose.stopped && d in clients
    ensures PutsBack(s, n) && Follows(s.status.restore) && PR.Down(s.replicas, s.pods, d)
  {
    assert PR.Followed(s.jobs, n, s.status.restore, s.replicas, s.pods, s.scheduled, clients);
  }

  lemma ReachesDecided(s: State, spec: Spec, api: Api, d: string)
    ensures Reaches(s, spec, api, d) ==> D.PlanDatabase(spec.database, s.postgres, s.jobs, s.now, api.database).Decided?
  {
  }

  // ---- clients that are rendered no longer ----

  /**
   * A client that the pass starting the restore has dropped from its render is not waited
   * for: beside the Job a pod of it runs if and only if one did before, or if it could not
   * be pruned and so starts another.
   */
  lemma DroppedClientIff(s: State, spec: Spec, api: Api, n: Name, d: string)
    requires spec.database.bundled && NewRestore(s.jobs, Pass(s, spec, api).jobs, n) && d !in spec.deployments
    ensures var s' := Do(Pass(s, spec, api), PodUp(d));
            && n in s'.jobs && InFlight(s'.jobs[n]) && d !in s'.jobs[n].purpose.stopped
            && (R.PodsOf(s'.pods, d) > 0 <==>
                  R.PodsOf(s.pods, d) > 0 || (d in api.unpruned && d in s.replicas && s.replicas[d] > 0))
  {
    hide CarryOut, D.PlanDatabase;
    PR.StartsWithAllDown(s, spec, api, n);
    P.PlanTouches(spec.database, s.postgres, s.jobs, s.now, api.database);
    match D.PlanDatabase(spec.database, s.postgres, s.jobs, s.now, api.database)
    case Unknown =>
    case Decided(plan, jobs) =>
      CarryOutDrops(s.(jobs := jobs), spec, plan, api, n, d);
  }

  lemma CarryOutDrops(s: State, spec: Spec, plan: D.Plan, api: Api, n: Name, d: string)
    requires NewRestore(s.jobs, CarryOut(s, spec, plan, api).jobs, n) && d !in spec.deployments
    ensures var s' := CarryOut(s, spec, plan, api);
            && s'.pods == s.pods && d !in s'.jobs[n].purpose.stopped
            && (d in s'.replicas <==> d in api.unpruned && d in s.replicas) && (d in s'.replicas ==> s'.replicas[d] == s.replicas[d])
  {
    hide CarryOut, Finish, Switched, PlanRestore, ApplySome, R.InProgress;
    var planned := PlanRestore(s, spec, plan);
    PR.SwitchedSame(s, plan);
    if PR.Broken(plan, api) {
      PR.BreaksOff(s, spec, plan, api);
    } else {
      var all := ApplyAll(Switched(s, plan), spec, plan.volume, planned.dump, api);
      PR.GoesOn(s, spec, plan, api);
      FinishStopsRendered(all, spec, plan, planned, api, n);
      P.FinishStays(all, spec, plan, planned, api);
    }
  }

  lemma FinishStopsRendered(s: State, spec: Spec, plan: D.Plan, planned: R.Planned, api: Api, n: Name)
    requires NewRestore(s.jobs, Finish(s, spec, plan, planned, api).jobs, n)
    ensures Finish(s, spec, plan, planned, api).jobs[n].purpose.stopped == R.Stopped(Rendered(spec, planned.dump))
  {
    hide Finish, StepRestore, JobsCopied, R.StepRestore, Rendered, R.InProgress, StillScheduled, R.Stopped;
    var copied := JobsCopied(s, spec, plan, planned.dump, api);
    PR.CopyTouches(s, spec, plan, planned.dump, api);
    PR.StepIs(s, spec, plan, planned, api);
    P.StepRestoreTouches(planned.restore, copied, s.pods, Rendered(spec, planned.dump), StillScheduled(s, spec, api), s.now, api.restore);
    if api.fault.Components? { PR.FinishJobs(s, spec, plan, planned, api); } else { PR.RestTouches(s, spec, plan, planned, api); }
    PR.StepStarts(planned.restore, copied, s.pods, Rendered(spec, planned.dump), StillScheduled(s, spec, api), s.now, api.restore, n);
  }

  // ---- inputs on which both come about ----

  predicate AllWell(api: Api) {
    && api.database.read && api.restore.unlisted == {} && api.restore.backupsListed && api.restore.claim.Present?
    && api.restore.hook && api.restore.creates
  }

  /** The Postgres on its claim, with nothing asked of it yet and no backup. */
  predicate AtRest(s: State, spec: Spec) {
    && spec.database.bundled && s.postgres == D.On(spec.database.claim)
    && s.status.restore.None? && Backups(s.jobs) == {}
  }

  lemma AtRestPlan(s: State, spec: Spec, api: Api)
    requires AtRest(s, spec) && api.database.read
    ensures D.PlanDatabase(spec.database, s.postgres, s.jobs, s.now, api.database) == D.Decided(D.Stay(spec.database.claim), s.jobs)
    ensures R.DumpOf(spec.restoreRequest).Some? && spec.restoreRequest != "" ==>
              PlanRestore(s, spec, D.Stay(spec.database.claim)) ==
                R.Planned(Some(R.Status(spec.restoreRequest, R.Stopping, None, s.now, None)), R.DumpOf(spec.restoreRequest))
  {
  }

  lemma StepBegins(rs: R.Status, dump: string, jobs: Table, render: map<string, nat>, scheduled: bool, now: Time, api: R.Api)
    requires Backups(jobs) == {} && AllRestores(jobs) == {} && api.name !in jobs
    requires api.unlisted == {} && api.backupsListed && api.claim.Present? && api.hook && api.creates
    ensures NewRestore(jobs, R.StepStopping(rs, dump, jobs, map[], render, scheduled, now, api).jobs, api.name)
    ensures PR.Restoring(R.StepStopping(rs, dump, jobs, map[], render, scheduled, now, api).jobs[api.name])
  {
    assert R.ClientsUp(render, map[], api) == {};
    assert Jobs.Running(jobs, Backups(jobs)) == {};
  }

  lemma FirstPass(s: State, spec: Spec, api: Api)
    requires AtRest(s, spec) && s.pods == map[] && AllRestores(s.jobs) == {} && api.restore.name !in s.jobs
    requires spec.restoreRequest != "" && R.DumpOf(spec.restoreRequest).Some? && api.fault.StatusWrite? && AllWell(api)
    ensures var s1 := Pass(s, spec, api);
            NewRestore(s.jobs, s1.jobs, api.restore.name) && AtRest(s1, spec) && s1.pods == s.pods
  {
    hide Finish, StepRestore, R.StepStopping, Rendered, R.DumpOf;
    AtRestPlan(s, spec, api);
    var plan := D.Stay(spec.database.claim);
    var planned := PlanRestore(s, spec, plan);
    var all := ApplyAll(s, spec, plan.volume, planned.dump, api);
    assert Pass(s, spec, api) == Finish(all, spec, plan, planned, api);
    PR.StepIs(all, spec, plan, planned, api);
    StepBegins(planned.restore.value, planned.dump.value, s.jobs, Rendered(spec, planned.dump), StillScheduled(all, spec, api), s.now, api.restore);
    PR.RestTouches(all, spec, plan, planned, api);
    P.FinishTouches(all, spec, plan, planned, api);
    P.FinishStays(all, spec, plan, planned, api);
    FinishStatusLost(all, spec, plan, planned, api);
  }

  /**
   * A cluster at rest, without a pod, is asked for a restore by a pass for which all goes
   * well but its status write. With the request withdrawn, the next pass lets a client's pod in beside
   * the restore; with the request standing, it cuts the restore short.
   */
  lemma LostWriteShows(s: State, spec: Spec, api: Api, spec': Spec, api': Api, d: string)
    requires AtRest(s, spec) && s.pods == map[] && AllRestores(s.jobs) == {} && PR.Inv(s, spec.clients) && spec'.database == spec.database
    requires spec.restoreRequest != "" && R.DumpOf(spec.restoreRequest).Some?
    requires api.fault.StatusWrite? && AllWell(api) && api'.fault.NoFault? && AllWell(api')
    requires api.restore.name !in s.jobs && api.restore.name in api'.restore.deletable
    requires d in spec.deployments && d in spec.clients && d in spec'.deployments && d in spec'.clients && spec'.deployments[d] > 0
    ensures var s1, n := Pass(s, spec, api), api.restore.name;
            var s2 := Pass(s1, spec', api');
            && n in s2.jobs && PR.Restoring(s2.jobs[n])
            && (spec'.restoreRequest == "" ==> R.PodsOf(Do(s2, PodUp(d)).pods, d) > 0)
            && (spec'.restoreRequest == spec.restoreRequest ==> s2.jobs[n].deleting)
  {
    hide Pass, R.DumpOf, D.PlanDatabase, PR.Inv;
    var s1 := Pass(s, spec, api);
    FirstPass(s, spec, api);
    AtRestPlan(s1, spec', api');
    assert WayClear(s1.jobs, s1.pods, Rendered(spec', PlanRestore(s1, spec', D.Stay(spec.database.claim)).dump), api'.restore) by {
      assert Jobs.Running(s1.jobs, Backups(s1.jobs)) == {};
    }
    ClientMeetsRestoreIff(s, spec, api, api.restore.name, spec', api', d);
    RestoreCutShortIff(s, spec, api, api.restore.name, spec', api');
  }
}
