/**
 * When a pass begins a realm run: a guard on what the pass is given, exact in every state
 * and in either mode of the databases.
 */
module PlatformRealm {
  import opened Basics
  import opened Jobs
  import opened Platform
  import P = PlatformDatabase
  import PR = PlatformRestore
  import PU = PlatformRuns
  import PX = PlatformExclusion
  import D = Database
  import R = Restore
  import K = RealmRun
  import V = Verification
  import L = LostRestores

  predicate NewRealmRun(before: Table, after: Table, m: Name) {
    m in after && m !in before && after[m].purpose.RealmJob?
  }

  predicate RealmRun(j: Job) {
    j.ours && !j.deleting && j.purpose.RealmJob?
  }

  /** The realm run made last of those kept; of two made at once, the one named first. */
  predicate Last(jobs: Table, m: Name) {
    && m in jobs && RealmRun(jobs[m])
    && forall k | k in jobs && RealmRun(jobs[k]) :: jobs[k].created < jobs[m].created || (jobs[k].created == jobs[m].created && m <= k)
  }

  /** None is kept, or the last one has finished and was for another realm, or failed ten minutes ago. */
  predicate Due(fingerprint: string, jobs: Table, now: Time) {
    forall m | m in jobs && Last(jobs, m) ::
      && !jobs[m].outcome.Unfinished?
      && (jobs[m].purpose.realmFingerprint != fingerprint || (jobs[m].outcome.Failed? && jobs[m].outcome.at + 600 <= now))
  }

  /** The last one is still going. */
  predicate Underway(jobs: Table) {
    exists m :: m in jobs && Last(jobs, m) && jobs[m].outcome.Unfinished?
  }

  lemma LastIsNewest(jobs: Table)
    ensures forall m :: Last(jobs, m) <==> RealmRuns(jobs) != {} && m == Newest(jobs, RealmRuns(jobs))
  {
    if RealmRuns(jobs) != {} {
      var n := Newest(jobs, RealmRuns(jobs));
      assert n in RealmRuns(jobs);
      assert forall k | k in jobs && RealmRun(jobs[k]) :: k in RealmRuns(jobs);
      assert forall m | Last(jobs, m) :: m in RealmRuns(jobs);
    } else {
      assert forall m | m in jobs && RealmRun(jobs[m]) :: m in RealmRuns(jobs);
    }
  }

  /** The latest run asks for another, rests or is waited for. */
  lemma LatestIs(fingerprint: string, jobs: Table, now: Time)
    ensures K.Latest(fingerprint, jobs, now).Run? <==> Due(fingerprint, jobs, now)
    ensures K.Latest(fingerprint, jobs, now).Busy? <==> Underway(jobs)
  {
    hide Newest, Last;
    LastIsNewest(jobs);
    if RealmRuns(jobs) != {} {
      assert Last(jobs, Newest(jobs, RealmRuns(jobs)));
    }
  }

  /** With one run kept it is due if and only if that one has finished, and was for another realm or failed ten minutes ago. */
  lemma DueAfterOne(fingerprint: string, jobs: Table, now: Time, m: Name)
    requires m in jobs && RealmRun(jobs[m]) && forall k | k in jobs && RealmRun(jobs[k]) :: k == m
    ensures Due(fingerprint, jobs, now) <==>
              !jobs[m].outcome.Unfinished?
              && (jobs[m].purpose.realmFingerprint != fingerprint || (jobs[m].outcome.Failed? && jobs[m].outcome.at + 600 <= now))
  {
    assert Last(jobs, m);
  }

  /** What a realm run still asks for, where nothing holds it back. */
  predicate Startable(hook: Option<string>, jobs: Table, now: Time, api: K.Api) {
    && hook.Some? && api.listed && Due(hook.value, jobs, now)
    && (forall m | m in jobs && RealmRun(jobs[m]) :: m in api.deletable) && api.creates && api.name !in jobs
  }

  /** The Keycloak just applied is up: as many replicas as it is to have, of its present rollout, and at least one. */
  predicate KeycloakUp(spec: Spec, dump: Option<string>, api: Api) {
    && KEYCLOAK in spec.deployments && api.keycloakObserved
    && var n := if dump.Some? && spec.database.bundled && KEYCLOAK in spec.clients then 0 else spec.deployments[KEYCLOAK];
       1 <= n <= api.keycloakUpdated && n <= Available(api, KEYCLOAK)
  }

  /** The restore's step of a pass that copies nothing. */
  function RestoreStep(s: State, spec: Spec, planned: R.Planned, api: Api): R.Stepped {
    R.StepRestore(planned.restore, s.jobs, s.pods, Rendered(spec, planned.dump), s.scheduled, s.now, api.restore)
  }

  /** No restore is in flight after its step, no verification is said to run, Keycloak is up, and the run can start. */
  ghost predicate RealmDue(s: State, spec: Spec, planned: R.Planned, api: Api) {
    var stepped := RestoreStep(s, spec, planned, api);
    && !stepped.inFlight && !V.IsRunning(s.status.verification)
    && KeycloakUp(spec, planned.dump, api) && Startable(spec.realm, stepped.jobs, s.now, api.realm)
  }

  /** The pass gets to its realm's step, copies nothing, and a run is due. */
  ghost predicate RealmBegins(s: State, spec: Spec, api: Api) {
    match D.PlanDatabase(spec.database, s.postgres, s.jobs, s.now, api.database)
    case Unknown => false
    case Decided(plan, _) =>
      && !api.fault.Deferred? && !PR.Broken(plan, api) && !api.fault.Components?
      && !plan.copying && RealmDue(s, spec, PlanRestore(s, spec, plan), api)
  }

  // ---- the step ----

  lemma ConfigureBeginsIff(hook: Option<string>, jobs: Table, keycloak: K.Keycloak, hold: bool, verifying: bool, now: Time, api: K.Api)
    ensures var jobs' := K.ConfigureRealm(hook, jobs, keycloak, hold, verifying, now, api).jobs;
            (exists m :: NewRealmRun(jobs, jobs', m)) <==> K.KeycloakAvailable(keycloak) && !hold && !verifying && Startable(hook, jobs, now, api)
  {
    hide K.Latest, K.KeycloakAvailable, Due;
    var jobs' := K.ConfigureRealm(hook, jobs, keycloak, hold, verifying, now, api).jobs;
    if hook.Some? { LatestIs(hook.value, jobs, now); }
    assert RealmRuns(jobs) <= api.deletable <==> forall m | m in jobs && RealmRun(jobs[m]) :: m in api.deletable by {
      assert forall m :: m in RealmRuns(jobs) <==> m in jobs && RealmRun(jobs[m]);
    }
    if K.KeycloakAvailable(keycloak) && !hold && !verifying && Startable(hook, jobs, now, api) {
      assert NewRealmRun(jobs, jobs', api.name);
    }
  }

  /**
   * The realm's step: it is pending while the runs cannot be listed, one is under way, or
   * one is due and Keycloak up; where it is due and nothing holds it back, the earlier runs
   * are deleted, and one for the rendered realm is made where all of them could be.
   */
  lemma ConfigureIs(hook: Option<string>, jobs: Table, keycloak: K.Keycloak, hold: bool, verifying: bool, now: Time, api: K.Api)
    ensures var r := K.ConfigureRealm(hook, jobs, keycloak, hold, verifying, now, api);
            var due := hook.Some? && api.listed && Due(hook.value, jobs, now) && K.KeycloakAvailable(keycloak);
            && (r.soon <==> hook.Some? && (!api.listed || Underway(jobs) || due))
            && (forall m | m in jobs :: m in r.jobs &&
                  r.jobs[m] == if due && !hold && !verifying && RealmRun(jobs[m]) && m in api.deletable then jobs[m].(deleting := true) else jobs[m])
            && (forall m | m in r.jobs && m !in jobs :: m == api.name && hook.Some? && r.jobs[m] == Made(RealmJob(hook.value), now))
  {
    hide K.Latest, K.KeycloakAvailable, Due, Underway;
    if hook.Some? { LatestIs(hook.value, jobs, now); }
  }

  /** Only the realm's step makes realm runs. */
  lemma OnlyTheRealmsStep(a: Table, b: Table, c: Table, d: Table)
    requires Touches(a, b, {CopyKind, RestoreKind}, {CopyKind, RestoreKind, RealmKind})
    requires Touches(b, c, {RealmKind}, {RealmKind}) && Touches(c, d, {VerifyKind}, {VerifyKind})
    ensures (exists m :: NewRealmRun(a, d, m)) <==> (exists m :: NewRealmRun(b, c, m))
  {
    if m :| NewRealmRun(a, d, m) { assert NewRealmRun(b, c, m); }
    if m :| NewRealmRun(b, c, m) { assert NewRealmRun(a, d, m); }
  }

  /** Whether backups stay scheduled is written on a Job the step makes, and decides nothing. */
  lemma ScheduleAside(restore: Option<R.Status>, jobs: Table, pods: map<string, nat>, render: map<string, nat>,
                      a: bool, b: bool, now: Time, api: R.Api)
    ensures var x, y := R.StepRestore(restore, jobs, pods, render, a, now, api), R.StepRestore(restore, jobs, pods, render, b, now, api);
            x.inFlight == y.inFlight && (!x.inFlight ==> x == y)
  {
    hide R.ClientsUp, Backups, AllRestores, Jobs.Running, R.DumpOf, RealmRuns, R.Stopped;
  }

  // ---- the pass ----

  /** The cluster has been applied as the pass rendered it. */
  predicate Applied(s: State, spec: Spec, dump: Option<string>) {
    forall d | d in spec.deployments :: d in s.replicas && s.replicas[d] == Rendered(spec, dump)[d]
  }

  lemma SeenIsApplied(s: State, spec: Spec, dump: Option<string>, api: Api)
    requires Applied(s, spec, dump)
    ensures K.KeycloakAvailable(KeycloakSeen(s.replicas, Rendered(spec, dump), api)) <==> KeycloakUp(spec, dump, api)
  {
  }

  lemma NothingCopied(s: State, spec: Spec, plan: D.Plan, dump: Option<string>, api: Api)
    requires !plan.start
    ensures JobsCopied(s, spec, plan, dump, api) == s.jobs
  {
  }

  lemma FinishBeginsIff(s: State, spec: Spec, plan: D.Plan, planned: R.Planned, api: Api)
    requires (plan.start ==> plan.copying) && Applied(s, spec, planned.dump)
    ensures (exists m :: NewRealmRun(s.jobs, Finish(s, spec, plan, planned, api).jobs, m)) <==>
              !api.fault.Components? && !plan.copying && RealmDue(s, spec, planned, api)
  {
    hide StepRestore, JobsCopied, R.StepRestore, K.ConfigureRealm, K.KeycloakAvailable, V.Step, Rendered, AllReady, KeycloakSeen,
         KeycloakUp, Tally, V.IsRunning, Startable, Applied, StillScheduled, Touches, NewRealmRun;
    var copied := JobsCopied(s, spec, plan, planned.dump, api);
    var render := Rendered(spec, planned.dump);
    var scheduled := StillScheduled(s, spec, api);
    var stepped := StepRestore(s, spec, plan, planned, api);
    PR.CopyTouches(s, spec, plan, planned.dump, api);
    PR.StepIs(s, spec, plan, planned, api);
    P.StepRestoreTouches(planned.restore, copied, s.pods, render, scheduled, s.now, api.restore);
    TouchesTransitive(s.jobs, copied, stepped.jobs, {CopyKind}, {CopyKind}, {RestoreKind}, {RestoreKind, RealmKind});
    TouchesMore(s.jobs, stepped.jobs, {CopyKind} + {RestoreKind}, {CopyKind} + {RestoreKind, RealmKind},
                {CopyKind, RestoreKind}, {CopyKind, RestoreKind, RealmKind});
    SeenIsApplied(s, spec, planned.dump, api);
    if api.fault.Components? {
      PR.FinishJobs(s, spec, plan, planned, api);
      NoRealmRuns(s.jobs, stepped.jobs);
    } else {
      var keycloak, hold := KeycloakSeen(s.replicas, render, api), plan.copying || stepped.inFlight;
      var configured := ConfigureRealm(s, spec, plan, planned, stepped, api);
      var ready := AllReady(s.replicas, render, api) && !configured.soon && !plan.copying && !stepped.inFlight;
      ConfigureBeginsIff(spec.realm, stepped.jobs, keycloak, hold, V.IsRunning(s.status.verification), s.now, api.realm);
      P.ConfigureRealmTouches(spec.realm, stepped.jobs, keycloak, hold, V.IsRunning(s.status.verification), s.now, api.realm);
      P.VerifyTouches(spec.verification, s.status.verification, configured.jobs, Asked(spec), ready, s.now, api.verification);
      OnlyTheRealmsStep(s.jobs, stepped.jobs, configured.jobs, Finish(s, spec, plan, planned, api).jobs);
      if !plan.copying {
        NothingCopied(s, spec, plan, planned.dump, api);
        ScheduleAside(planned.restore, s.jobs, s.pods, render, scheduled, s.scheduled, s.now, api.restore);
      }
    }
  }

  lemma NoRealmRuns(a: Table, b: Table)
    requires Touches(a, b, {CopyKind, RestoreKind}, {CopyKind, RestoreKind, RealmKind})
    ensures !exists m :: NewRealmRun(a, b, m)
  {
  }

  lemma CarryOutBeginsIff(s: State, spec: Spec, plan: D.Plan, api: Api)
    requires plan.start || plan.switching ==> plan.copying
    ensures (exists m :: NewRealmRun(s.jobs, CarryOut(s, spec, plan, api).jobs, m)) <==>
              !PR.Broken(plan, api) && !api.fault.Components? && !plan.copying && RealmDue(s, spec, PlanRestore(s, spec, plan), api)
  {
    hide CarryOut, Finish, ApplyAll, ApplySome, Switched, PlanRestore, Rendered, RealmDue;
    var planned := PlanRestore(s, spec, plan);
    PR.SwitchedSame(s, plan);
    PR.ApplySame(Switched(s, plan), spec, plan.volume, planned.dump, api);
    if PR.Broken(plan, api) {
      PR.BreaksOff(s, spec, plan, api);
    } else {
      var all := ApplyAll(Switched(s, plan), spec, plan.volume, planned.dump, api);
      PR.GoesOn(s, spec, plan, api);
      FinishBeginsIff(all, spec, plan, planned, api);
      if !plan.copying { DueAside(s, spec, plan, planned, api); }
    }
  }

  /** The apply changes nothing a realm run asks for but the Deployments and the schedule. */
  lemma DueAside(s: State, spec: Spec, plan: D.Plan, planned: R.Planned, api: Api)
    ensures RealmDue(ApplyAll(Switched(s, plan), spec, plan.volume, planned.dump, api), spec, planned, api) <==> RealmDue(s, spec, planned, api)
  {
    hide R.StepRestore, KeycloakUp, Startable, V.IsRunning, Rendered;
    var all := ApplyAll(Switched(s, plan), spec, plan.volume, planned.dump, api);
    ScheduleAside(planned.restore, s.jobs, s.pods, Rendered(spec, planned.dump), all.scheduled, s.scheduled, s.now, api.restore);
  }

  lemma PlanIsPlain(spec: D.Spec, postgres: D.Postgres, jobs: Table, now: Time, api: D.Api)
    ensures match D.PlanDatabase(spec, postgres, jobs, now, api)
            case Unknown => true
            case Decided(plan, jobs') =>
              (plan.start || plan.switching ==> plan.copying) && (!plan.copying ==> jobs' == jobs) && Touches(jobs, jobs', {}, {CopyKind})
  {
  }

  /** A pass begins a realm run if and only if the guard holds: in every state, whatever is asked. */
  lemma RealmBeginsIff(s: State, spec: Spec, api: Api)
    ensures (exists m :: NewRealmRun(s.jobs, Pass(s, spec, api).jobs, m)) <==> RealmBegins(s, spec, api)
  {
    hide CarryOut, D.PlanDatabase, RealmDue, PlanRestore;
    PlanIsPlain(spec.database, s.postgres, s.jobs, s.now, api.database);
    match D.PlanDatabase(spec.database, s.postgres, s.jobs, s.now, api.database)
    case Unknown =>
    case Decided(plan, jobs) =>
      if !api.fault.Deferred? {
        var jobs' := Pass(s, spec, api).jobs;
        CarryOutBeginsIff(s.(jobs := jobs), spec, plan, api);
        assert forall m :: NewRealmRun(jobs, jobs', m) <==> NewRealmRun(s.jobs, jobs', m);
      }
  }

  // ---- what the guard asks in each mode ----

  /** With bundled databases nothing may be restored at all, and Keycloak is up at the spec's replicas. */
  lemma BundledDueIff(s: State, spec: Spec, plan: D.Plan, api: Api)
    requires spec.database.bundled && PU.Chart(spec) && !plan.copying
    ensures RealmDue(s, spec, PlanRestore(s, spec, plan), api) <==>
              && L.Withdrawn(s, spec, false) && !V.IsRunning(s.status.verification)
              && KeycloakUp(spec, None, api) && Startable(spec.realm, s.jobs, s.now, api.realm)
  {
    hide R.StepStopping, R.StepRunning, Startable, V.IsRunning, R.DumpOf;
    L.RendersNoDumpIff(s, spec, plan);
    PR.PlanDump(s, spec, plan);
  }

  /**
   * In a pass that finds a restore in flight a realm run begins if and only if the
   * databases are external in that pass, its step ends the restore, and a run is due then.
   */
  lemma BeginsInEndingPassIff(s: State, spec: Spec, api: Api)
    requires PX.InFlight(s) && PU.Chart(spec)
    ensures (exists m :: NewRealmRun(s.jobs, Pass(s, spec, api).jobs, m)) <==>
              && !spec.database.bundled && !api.fault.Deferred? && !PR.Broken(EXTERNAL, api) && !api.fault.Components?
              && RealmDue(s, spec, R.Planned(s.status.restore, R.InProgress(s.status.restore)), api)
  {
    hide Pass, RealmDue, R.DumpOf;
    RealmBeginsIff(s, spec, api);
    match D.PlanDatabase(spec.database, s.postgres, s.jobs, s.now, api.database)
    case Unknown =>
    case Decided(plan, _) =>
      if spec.database.bundled && !plan.copying { BundledDueIff(s, spec, plan, api); }
  }

  /** The plan of a pass with external databases. */
  const EXTERNAL := D.Plan(None, false, false, false, false)

  /** The inputs on which one does: the restore Job has succeeded, and all goes well for the pass. */
  lemma BeginsInEndingPassShows(s: State, spec: Spec, api: Api, r: Name)
    requires PX.InFlight(s) && s.status.restore.value.result.Running? && s.status.restore.value.job == Some(r)
    requires r in s.jobs && s.jobs[r].outcome.Complete? && !V.IsRunning(s.status.verification)
    requires !spec.database.bundled && PU.Chart(spec) && spec.realm.Some? && api.fault.NoFault?
    requires api.restore.jobRead && api.restore.podsRead && api.restore.realmListed && RealmRuns(s.jobs) <= api.restore.deletable
    requires KeycloakUp(spec, None, api) && api.realm.listed && api.realm.creates && api.realm.name !in s.jobs
    ensures exists m :: NewRealmRun(s.jobs, Pass(s, spec, api).jobs, m)
  {
    hide Pass, K.KeycloakAvailable, R.DumpOf;
    BeginsInEndingPassIff(s, spec, api);
    var stepped := RestoreStep(s, spec, R.Planned(s.status.restore, R.InProgress(s.status.restore)), api);
    assert RealmRuns(stepped.jobs) == {};
  }
}
