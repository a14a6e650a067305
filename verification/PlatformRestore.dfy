/**
 * Restores over every run: while a restore Job is unfinished its clients are down and no
 * backup runs, and one Job is made for each request.
 */
module PlatformRestore {
  import opened Basics
  import opened Jobs
  import opened Platform
  import P = PlatformDatabase
  import D = Database
  import R = Restore
  import K = RealmRun
  import V = Verification

  /** A Job that is putting a dump back. */
  predicate Restoring(j: Job) {
    j.ours && j.purpose.RestoreJob? && j.outcome.Unfinished?
  }

  /** No pod of d is there, nor will one come. */
  predicate Down(replicas: map<string, nat>, pods: map<string, nat>, d: string) {
    (d !in replicas || replicas[d] == 0) && R.PodsOf(pods, d) == 0
  }

  predicate Quiet(jobs: Table, scheduled: bool) {
    !scheduled && Jobs.Running(jobs, Backups(jobs)) == {}
  }

  /** Status follows Job n, and all it stopped is still down. */
  ghost predicate Followed(jobs: Table, n: Name, restore: Option<R.Status>, replicas: map<string, nat>,
                           pods: map<string, nat>, scheduled: bool, clients: set<string>)
    requires n in jobs && jobs[n].purpose.RestoreJob?
  {
    var p := jobs[n].purpose;
    && !jobs[n].deleting
    && restore.Some? && restore.value.result.Running? && restore.value.job == Some(n)
    && R.DumpOf(restore.value.request) == Some(p.dump)
    && (forall d | d in p.stopped && d in clients :: Down(replicas, pods, d))
    && (p.quiet ==> Quiet(jobs, scheduled))
  }

  ghost predicate AllFollowed(jobs: Table, restore: Option<R.Status>, replicas: map<string, nat>,
                              pods: map<string, nat>, scheduled: bool, clients: set<string>) {
    forall n | n in jobs && Restoring(jobs[n]) :: Followed(jobs, n, restore, replicas, pods, scheduled, clients)
  }

  /** Status in flight names a dump, and counts one Job for it at the most. */
  predicate Tallied(restore: Option<R.Status>, made: nat) {
    && made <= 1
    && (restore.Some? && restore.value.result.Stopping? ==> made == 0)
    && (restore.Some? && restore.value.result in {R.Stopping, R.Running} ==> R.DumpOf(restore.value.request).Some?)
  }

  ghost predicate Inv(s: State, clients: set<string>) {
    && AllFollowed(s.jobs, s.status.restore, s.replicas, s.pods, s.scheduled, clients)
    && Tallied(s.status.restore, s.restoreJobs)
  }

  /** The chart's clients are `clients`, no pass loses its status write, and nobody makes a backup Job by hand. */
  predicate Steady(e: Event, clients: set<string>) {
    && (e.Reconcile? ==> e.spec.clients == clients && !e.api.fault.Components? && !e.api.fault.StatusWrite?)
    && (e.Stranger? ==> !e.job.purpose.BackupJob?)
  }

  /** The databases are bundled in every pass that finds a restore in flight. */
  predicate StaysBundled(s: State, e: Event) {
    e.Reconcile? && R.InProgress(s.status.restore).Some? ==> e.spec.database.bundled
  }

  ghost predicate AllStayBundled(s: State, events: seq<Event>)
    decreases |events|
  {
    events == [] || (StaysBundled(s, events[0]) && AllStayBundled(Do(s, events[0]), events[1..]))
  }

  // ---- the parts of a pass ----

  /** The restore decision of a pass: what was in flight goes on with its dump, and nothing else has one. */
  lemma PlanKeepsOn(s: State, spec: Spec, plan: D.Plan)
    requires Tallied(s.status.restore, s.restoreJobs) && (R.InProgress(s.status.restore).Some? ==> spec.database.bundled)
    ensures var planned := PlanRestore(s, spec, plan);
            && (planned.dump.Some? ==> spec.database.bundled) && planned.dump == R.InProgress(planned.restore)
            && (R.InProgress(s.status.restore).Some? ==>
                  planned.restore == s.status.restore && planned.dump == R.InProgress(s.status.restore))
            && (planned.restore != s.status.restore && planned.dump.Some? ==> planned.restore.value.result.Stopping?)
            && Tallied(planned.restore, if TookUp(s.status.restore, planned) then 0 else s.restoreJobs)
  {
  }

  /** While a dump is rendered, an apply leaves down what is down, and schedules no backup. */
  lemma ApplyKeepsDown(s: State, spec: Spec, volume: Option<Volume>, dump: string, api: Api, d: string)
    requires spec.database.bundled && d in spec.clients && Down(s.replicas, s.pods, d)
    ensures Down(ApplyAll(s, spec, volume, Some(dump), api).replicas, s.pods, d)
    ensures Down(ApplySome(s, spec, volume, Some(dump), api).replicas, s.pods, d)
  {
  }

  /** What one step leaves of a restore. */
  lemma StepKeeps(rs: R.Status, jobs: Table, replicas: map<string, nat>, pods: map<string, nat>, render: map<string, nat>,
                  scheduled: bool, clients: set<string>, made: nat, now: Time, api: R.Api)
    requires AllFollowed(jobs, Some(rs), replicas, pods, scheduled, clients) && Tallied(Some(rs), made)
    requires R.InProgress(Some(rs)).Some? ==> forall d | d in render && d in clients :: render[d] == 0 && d in replicas && replicas[d] == 0
    ensures var stepped := R.StepRestore(Some(rs), jobs, pods, render, scheduled, now, api);
            var made' := made + (if jobs.Keys < stepped.jobs.Keys then 1 else 0);
            && AllFollowed(stepped.jobs, stepped.restore, replicas, pods, scheduled, clients)
            && Tallied(stepped.restore, made')
  {
    var stepped := R.StepRestore(Some(rs), jobs, pods, render, scheduled, now, api);
    if R.InProgress(Some(rs)).None? {
      assert forall n | n in jobs :: !Restoring(jobs[n]);
    } else if rs.result.Stopping? {
      StoppingKeeps(rs, jobs, replicas, pods, render, scheduled, clients, now, api);
    } else {
      RunningKeeps(rs, jobs, replicas, pods, scheduled, clients, now, api);
    }
  }

  lemma StoppingKeeps(rs: R.Status, jobs: Table, replicas: map<string, nat>, pods: map<string, nat>, render: map<string, nat>,
                      scheduled: bool, clients: set<string>, now: Time, api: R.Api)
    requires AllFollowed(jobs, Some(rs), replicas, pods, scheduled, clients) && rs.result.Stopping?
    requires R.DumpOf(rs.request).Some?
    requires forall d | d in render && d in clients :: render[d] == 0 && d in replicas && replicas[d] == 0
    ensures var stepped := R.StepStopping(rs, R.DumpOf(rs.request).value, jobs, pods, render, scheduled, now, api);
            && AllFollowed(stepped.jobs, stepped.restore, replicas, pods, scheduled, clients)
            && stepped.restore.Some? && stepped.restore.value.request == rs.request
            && (jobs.Keys < stepped.jobs.Keys ==> stepped.restore.value.result.Running?)
            && stepped.restore.value.result in {R.Stopping, R.Running, R.Refused, R.Result.Failed}
  {
    var stepped := R.StepStopping(rs, R.DumpOf(rs.request).value, jobs, pods, render, scheduled, now, api);
    assert forall n | n in jobs :: !Restoring(jobs[n]);
    P.StoppingTouches(rs, R.DumpOf(rs.request).value, jobs, pods, render, scheduled, now, api);
    assert stepped.jobs.Keys <= jobs.Keys + {api.name};
    if jobs.Keys < stepped.jobs.Keys {
      StartedFollowed(rs, jobs, replicas, pods, render, scheduled, clients, now, api);
    }
  }

  lemma StartedFollowed(rs: R.Status, jobs: Table, replicas: map<string, nat>, pods: map<string, nat>, render: map<string, nat>,
                        scheduled: bool, clients: set<string>, now: Time, api: R.Api)
    requires R.DumpOf(rs.request).Some?
    requires forall d | d in render && d in clients :: render[d] == 0 && d in replicas && replicas[d] == 0
    requires jobs.Keys < R.StepStopping(rs, R.DumpOf(rs.request).value, jobs, pods, render, scheduled, now, api).jobs.Keys
    ensures var stepped := R.StepStopping(rs, R.DumpOf(rs.request).value, jobs, pods, render, scheduled, now, api);
            && api.name in stepped.jobs && stepped.jobs[api.name].purpose.RestoreJob?
            && Followed(stepped.jobs, api.name, stepped.restore, replicas, pods, scheduled, clients)
  {
    hide R.DumpOf;
    var stepped := R.StepStopping(rs, R.DumpOf(rs.request).value, jobs, pods, render, scheduled, now, api);
    assert R.ClientsUp(render, pods, api) == {} && Jobs.Running(jobs, Backups(jobs)) == {};
    assert forall d | d in R.Stopped(render) :: d !in R.ClientsUp(render, pods, api);
    assert Backups(stepped.jobs) == Backups(jobs);
  }

  lemma RunningKeeps(rs: R.Status, jobs: Table, replicas: map<string, nat>, pods: map<string, nat>,
                     scheduled: bool, clients: set<string>, now: Time, api: R.Api)
    requires AllFollowed(jobs, Some(rs), replicas, pods, scheduled, clients) && rs.result.Running?
    ensures var stepped := R.StepRunning(rs, jobs, now, api);
            && AllFollowed(stepped.jobs, stepped.restore, replicas, pods, scheduled, clients)
            && stepped.jobs.Keys == jobs.Keys
            && stepped.restore.Some? && stepped.restore.value.request == rs.request
            && !stepped.restore.value.result.Stopping?
  {
    hide R.DumpOf, Down;
    var stepped := R.StepRunning(rs, jobs, now, api);
    assert Jobs.Running(stepped.jobs, Backups(stepped.jobs)) == Jobs.Running(jobs, Backups(jobs));
  }

  /** Jobs of other kinds come and go beside a restore. */
  lemma OtherKindsKeep(jobs: Table, jobs': Table, restore: Option<R.Status>, replicas: map<string, nat>, pods: map<string, nat>,
                       scheduled: bool, scheduled': bool, clients: set<string>, kinds: set<Kind>)
    requires Touches(jobs, jobs', kinds, kinds) && RestoreKind !in kinds && BackupKind !in kinds
    requires AllFollowed(jobs, restore, replicas, pods, scheduled, clients) && (scheduled' ==> scheduled)
    ensures AllFollowed(jobs', restore, replicas, pods, scheduled', clients)
  {
    assert Jobs.Running(jobs', Backups(jobs')) == Jobs.Running(jobs, Backups(jobs));
  }

  lemma CopyTouches(s: State, spec: Spec, plan: D.Plan, dump: Option<string>, api: Api)
    ensures Touches(s.jobs, JobsCopied(s, spec, plan, dump, api), {CopyKind}, {CopyKind})
  {
  }

  /** The realm and the verification, after the restore's step. */
  lemma RestTouches(s: State, spec: Spec, plan: D.Plan, planned: R.Planned, api: Api)
    requires !api.fault.Components?
    ensures Touches(StepRestore(s, spec, plan, planned, api).jobs, Finish(s, spec, plan, planned, api).jobs,
                    {RealmKind, VerifyKind}, {RealmKind, VerifyKind})
  {
    hide R.StepRestore, K.ConfigureRealm, V.Step, JobsCopied, AllReady, Rendered, KeycloakSeen, Asked, Tally, Touches;
    var render := Rendered(spec, planned.dump);
    var stepped := StepRestore(s, spec, plan, planned, api);
    var configured := ConfigureRealm(s, spec, plan, planned, stepped, api);
    P.ConfigureRealmTouches(spec.realm, stepped.jobs, KeycloakSeen(s.replicas, render, api),
                            plan.copying || stepped.inFlight, V.IsRunning(s.status.verification), s.now, api.realm);
    var verified := Verify(s, spec, plan, planned, stepped, configured, api);
    var ready := AllReady(s.replicas, render, api) && !configured.soon && !plan.copying && !stepped.inFlight;
    P.VerifyTouches(spec.verification, s.status.verification, configured.jobs, Asked(spec), ready, s.now, api.verification);
    TouchesTransitive(stepped.jobs, configured.jobs, verified.jobs, {RealmKind}, {RealmKind}, {VerifyKind}, {VerifyKind});
    assert {RealmKind} + {VerifyKind} == {RealmKind, VerifyKind};
  }

  lemma FinishKeeps(s: State, spec: Spec, plan: D.Plan, planned: R.Planned, api: Api)
    requires !api.fault.Components? && !api.fault.StatusWrite?
    requires AllFollowed(s.jobs, planned.restore, s.replicas, s.pods, s.scheduled, spec.clients)
    requires Tallied(planned.restore, if TookUp(s.status.restore, planned) then 0 else s.restoreJobs)
    requires planned.dump == R.InProgress(planned.restore) && (planned.dump.Some? ==> spec.database.bundled)
    requires forall d | d in spec.deployments :: d in s.replicas && s.replicas[d] == Rendered(spec, planned.dump)[d]
    ensures Inv(Finish(s, spec, plan, planned, api), spec.clients)
  {
    var copied := JobsCopied(s, spec, plan, planned.dump, api);
    var render := Rendered(spec, planned.dump);
    CopyTouches(s, spec, plan, planned.dump, api);
    OtherKindsKeep(s.jobs, copied, planned.restore, s.replicas, s.pods, s.scheduled, StillScheduled(s, spec, api), spec.clients, {CopyKind});
    if planned.restore.Some? {
      StepKeeps(planned.restore.value, copied, s.replicas, s.pods, render, StillScheduled(s, spec, api), spec.clients,
                if TookUp(s.status.restore, planned) then 0 else s.restoreJobs, s.now, api.restore);
    }
    RestTouches(s, spec, plan, planned, api);
    FinishSums(s, spec, plan, planned, api);
    var s' := Finish(s, spec, plan, planned, api);
    var stepped := StepRestore(s, spec, plan, planned, api);
    OtherKindsKeep(stepped.jobs, s'.jobs, stepped.restore, s.replicas, s.pods, s'.scheduled, s'.scheduled, spec.clients,
                   {RealmKind, VerifyKind});
  }

  /** What a pass that runs to its end writes about the restore. */
  lemma FinishSums(s: State, spec: Spec, plan: D.Plan, planned: R.Planned, api: Api)
    requires !api.fault.Components? && !api.fault.StatusWrite?
    ensures var s' := Finish(s, spec, plan, planned, api);
            var stepped := StepRestore(s, spec, plan, planned, api);
            && s'.status.restore == stepped.restore && s'.scheduled == StillScheduled(s, spec, api)
            && s'.replicas == s.replicas && s'.pods == s.pods
            && s'.restoreJobs == (if TookUp(s.status.restore, planned) then 0 else s.restoreJobs)
                 + (if JobsCopied(s, spec, plan, planned.dump, api).Keys < stepped.jobs.Keys then 1 else 0)
  {
    hide StepRestore, JobsCopied, ConfigureRealm, Verify, StillScheduled;
  }

  /** An apply, whole or broken off, under the dump the pass restores. */
  lemma ApplyKeeps(s: State, spec: Spec, plan: D.Plan, planned: R.Planned, api: Api)
    requires planned.dump == R.InProgress(planned.restore) && (planned.dump.Some? ==> spec.database.bundled)
    requires AllFollowed(s.jobs, planned.restore, s.replicas, s.pods, s.scheduled, spec.clients)
    ensures var all, some := ApplyAll(s, spec, plan.volume, planned.dump, api), ApplySome(s, spec, plan.volume, planned.dump, api);
            && AllFollowed(s.jobs, planned.restore, all.replicas, s.pods, all.scheduled, spec.clients)
            && AllFollowed(s.jobs, planned.restore, some.replicas, s.pods, some.scheduled, spec.clients)
  {
    hide ApplyAll, ApplySome, Down, Quiet;
    var all, some := ApplyAll(s, spec, plan.volume, planned.dump, api), ApplySome(s, spec, plan.volume, planned.dump, api);
    forall n | n in s.jobs && Restoring(s.jobs[n])
      ensures Followed(s.jobs, n, planned.restore, all.replicas, s.pods, all.scheduled, spec.clients)
      ensures Followed(s.jobs, n, planned.restore, some.replicas, s.pods, some.scheduled, spec.clients)
    {
      assert Followed(s.jobs, n, planned.restore, s.replicas, s.pods, s.scheduled, spec.clients);
      forall d | d in s.jobs[n].purpose.stopped && d in spec.clients
        ensures Down(all.replicas, s.pods, d) && Down(some.replicas, s.pods, d)
      {
        ApplyKeepsDown(s, spec, plan.volume, planned.dump.value, api, d);
      }
      ApplyKeepsQuiet(s, spec, plan.volume, planned.dump.value, api);
    }
  }

  lemma ApplyKeepsQuiet(s: State, spec: Spec, volume: Option<Volume>, dump: string, api: Api)
    requires spec.database.bundled
    ensures Quiet(s.jobs, s.scheduled) ==> Quiet(s.jobs, ApplyAll(s, spec, volume, Some(dump), api).scheduled)
    ensures Quiet(s.jobs, s.scheduled) ==> Quiet(s.jobs, ApplySome(s, spec, volume, Some(dump), api).scheduled)
  {
  }

  lemma CarryOutKeeps(s: State, spec: Spec, plan: D.Plan, api: Api)
    requires Inv(s, spec.clients) && Steady(Reconcile(spec, api), spec.clients) && StaysBundled(s, Reconcile(spec, api))
    ensures Inv(CarryOut(s, spec, plan, api), spec.clients)
  {
    hide CarryOut, Finish, ApplyAll, ApplySome, PlanRestore, Switched, Followed, Rendered;
    var planned := PlanRestore(s, spec, plan);
    PlanKeepsOn(s, spec, plan);
    forall n | n in s.jobs && Restoring(s.jobs[n])
      ensures planned.restore == s.status.restore
    {
      assert Followed(s.jobs, n, s.status.restore, s.replicas, s.pods, s.scheduled, spec.clients);
      FollowedInProgress(s.jobs, n, s.status.restore, s.replicas, s.pods, s.scheduled, spec.clients);
    }
    assert AllFollowed(s.jobs, planned.restore, s.replicas, s.pods, s.scheduled, spec.clients);
    var s1 := Switched(s, plan);
    SwitchedSame(s, plan);
    ApplyKeeps(s1, spec, plan, planned, api);
    ApplySame(s1, spec, plan.volume, planned.dump, api);
    if Broken(plan, api) {
      BreaksOff(s, spec, plan, api);
    } else {
      GoesOn(s, spec, plan, api);
      FinishKeeps(ApplyAll(s1, spec, plan.volume, planned.dump, api), spec, plan, planned, api);
    }
  }

  /** The pass ends before its apply has gone through. */
  predicate Broken(plan: D.Plan, api: Api) {
    api.fault.Certificate? || api.fault.Render? || api.fault.Secrets? || (plan.switching && api.fault.Switch?) || api.fault.Apply?
  }

  /** It leaves the Jobs and the verification's status, and of its decision and its apply all or nothing that is asked about here. */
  lemma BreaksOff(s: State, spec: Spec, plan: D.Plan, api: Api)
    requires Broken(plan, api)
    ensures var s' := CarryOut(s, spec, plan, api);
            var planned := PlanRestore(s, spec, plan);
            var some := ApplySome(Switched(s, plan), spec, plan.volume, planned.dump, api);
            && s'.jobs == s.jobs && s'.pods == s.pods && s'.status.verification == s.status.verification
            && ((s'.status.restore == s.status.restore && s'.restoreJobs == s.restoreJobs)
                || (s'.status.restore == planned.restore && s'.restoreJobs == if TookUp(s.status.restore, planned) then 0 else s.restoreJobs))
            && (if api.fault.Apply? then s'.replicas == some.replicas && s'.scheduled == some.scheduled
                else s'.replicas == s.replicas && s'.scheduled == s.scheduled)
  {
    hide Finish, ApplyAll, ApplySome, PlanRestore, Switched, Rendered, Noted, TookUp;
    var planned := PlanRestore(s, spec, plan);
    SwitchedSame(s, plan);
    ApplySame(Switched(s, plan), spec, plan.volume, planned.dump, api);
    NotedIs(s, planned, api.noted);
    NotedIs(ApplySome(Switched(s, plan), spec, plan.volume, planned.dump, api), planned, api.noted);
  }

  lemma NotedIs(s: State, planned: R.Planned, written: bool)
    ensures var s' := Noted(s, planned, written);
            && s'.jobs == s.jobs && s'.pods == s.pods && s'.replicas == s.replicas && s'.scheduled == s.scheduled
            && s'.status == (if written then s.status.(restore := planned.restore) else s.status)
            && s'.restoreJobs == if written && TookUp(s.status.restore, planned) then 0 else s.restoreJobs
  {
  }

  lemma GoesOn(s: State, spec: Spec, plan: D.Plan, api: Api)
    requires !Broken(plan, api)
    ensures var planned := PlanRestore(s, spec, plan);
            CarryOut(s, spec, plan, api) == Finish(ApplyAll(Switched(s, plan), spec, plan.volume, planned.dump, api), spec, plan, planned, api)
  {
    hide Finish, ApplyAll, ApplySome, PlanRestore, Switched;
  }

  lemma FollowedInProgress(jobs: Table, n: Name, restore: Option<R.Status>, replicas: map<string, nat>, pods: map<string, nat>,
                           scheduled: bool, clients: set<string>)
    requires n in jobs && jobs[n].purpose.RestoreJob? && Followed(jobs, n, restore, replicas, pods, scheduled, clients)
    ensures R.InProgress(restore) == Some(jobs[n].purpose.dump)
  {
  }

  lemma SwitchedSame(s: State, plan: D.Plan)
    ensures var s' := Switched(s, plan);
            && s'.jobs == s.jobs && s'.replicas == s.replicas && s'.pods == s.pods && s'.scheduled == s.scheduled
            && s'.status == s.status && s'.restoreJobs == s.restoreJobs
  {
  }

  lemma ApplySame(s: State, spec: Spec, volume: Option<Volume>, dump: Option<string>, api: Api)
    ensures var all, some := ApplyAll(s, spec, volume, dump, api), ApplySome(s, spec, volume, dump, api);
            && all.jobs == some.jobs == s.jobs && all.pods == some.pods == s.pods
            && all.status == some.status == s.status && all.restoreJobs == some.restoreJobs == s.restoreJobs
            && forall d | d in spec.deployments :: d in all.replicas && all.replicas[d] == Rendered(spec, dump)[d]
  {
  }

  lemma PassKeeps(s: State, spec: Spec, api: Api)
    requires Inv(s, spec.clients) && Steady(Reconcile(spec, api), spec.clients) && StaysBundled(s, Reconcile(spec, api))
    ensures Inv(Pass(s, spec, api), spec.clients)
  {
    hide CarryOut, D.PlanDatabase;
    P.PlanTouches(spec.database, s.postgres, s.jobs, s.now, api.database);
    match D.PlanDatabase(spec.database, s.postgres, s.jobs, s.now, api.database)
    case Unknown =>
    case Decided(plan, jobs) =>
      TouchesMore(s.jobs, jobs, {}, {CopyKind}, {CopyKind}, {CopyKind});
      OtherKindsKeep(s.jobs, jobs, s.status.restore, s.replicas, s.pods, s.scheduled, s.scheduled, spec.clients, {CopyKind});
      CarryOutKeeps(s.(jobs := jobs), spec, plan, api);
  }

  lemma EndKeeps(s: State, name: Name, success: bool, data: set<nat>, clients: set<string>)
    requires Inv(s, clients) && name in s.jobs && s.jobs[name].outcome.Unfinished?
    ensures Inv(JobEnds(s, name, success, data), clients)
  {
  }

  lemma EventKeeps(s: State, e: Event, clients: set<string>)
    requires Inv(s, clients) && Steady(e, clients) && StaysBundled(s, e)
    ensures Inv(Do(s, e), clients)
  {
    hide Pass, JobEnds;
    match e
    case Reconcile(spec, api) => PassKeeps(s, spec, api);
    case Ends(name, success, data) =>
      if name in s.jobs && s.jobs[name].outcome.Unfinished? { EndKeeps(s, name, success, data, clients); }
    case _ =>
  }

  // ---- the theorems ----

  predicate AllSteady(events: seq<Event>, clients: set<string>) {
    forall i | 0 <= i < |events| :: Steady(events[i], clients)
  }

  lemma {:induction false} RunKeeps(s: State, events: seq<Event>, clients: set<string>)
    requires Inv(s, clients) && AllSteady(events, clients) && AllStayBundled(s, events)
    ensures Inv(Run(s, events), clients)
    decreases |events|
  {
    hide Do, Inv, StaysBundled;
    if events != [] {
      assert Steady(events[0], clients);
      EventKeeps(s, events[0], clients);
      assert AllSteady(events[1..], clients);
      RunKeeps(Do(s, events[0]), events[1..], clients);
    }
  }

  /**
   * In every run: one restore Job at the most is unfinished, none of the clients it
   * stopped has a pod, no backup runs beside it unless its schedule was kept when the Job
   * was made, and no request has been given a second Job.
   */
  lemma RestoresRunAlone(s: State, events: seq<Event>, clients: set<string>)
    requires Inv(s, clients) && AllSteady(events, clients) && AllStayBundled(s, events)
    ensures var s' := Run(s, events);
            && (forall n | n in s'.jobs && Restoring(s'.jobs[n]) ::
                  && (forall d | d in s'.jobs[n].purpose.stopped && d in clients :: R.PodsOf(s'.pods, d) == 0)
                  && (s'.jobs[n].purpose.quiet ==> Jobs.Running(s'.jobs, Backups(s'.jobs)) == {}))
            && (forall n, m | n in s'.jobs && m in s'.jobs && Restoring(s'.jobs[n]) && Restoring(s'.jobs[m]) :: n == m)
            && s'.restoreJobs <= 1
  {
    hide Run;
    RunKeeps(s, events, clients);
    var s' := Run(s, events);
    forall n | n in s'.jobs && Restoring(s'.jobs[n])
      ensures forall d | d in s'.jobs[n].purpose.stopped && d in clients :: R.PodsOf(s'.pods, d) == 0
    {
      assert Followed(s'.jobs, n, s'.status.restore, s'.replicas, s'.pods, s'.scheduled, clients);
      assert forall d | d in s'.jobs[n].purpose.stopped && d in clients :: Down(s'.replicas, s'.pods, d);
    }
  }

  /** While a restore Job is unfinished, every pass renders its dump, whatever is asked meanwhile. */
  lemma PassesRenderTheDump(s: State, n: Name, spec: Spec, plan: D.Plan)
    requires Inv(s, spec.clients) && n in s.jobs && Restoring(s.jobs[n])
    ensures PlanRestore(s, spec, plan).dump == Some(s.jobs[n].purpose.dump)
    ensures PlanRestore(s, spec, plan).restore == s.status.restore
  {
    assert Followed(s.jobs, n, s.status.restore, s.replicas, s.pods, s.scheduled, spec.clients);
  }

  /** Backups go on being scheduled past the pass: turned off, and their CronJob neither pruned nor removed. */
  predicate KeepsSchedule(s: State, spec: Spec, api: Api) {
    !spec.backups && s.scheduled && !api.cronPruned && !api.cronRemoved
  }

  /**
   * A restore Job starts only when every client the pass renders is without a pod and no
   * backup runs; a backup can still start after that pass if and only if its schedule is kept.
   */
  lemma StartsWithAllDown(s: State, spec: Spec, api: Api, n: Name)
    requires spec.database.bundled && n in Pass(s, spec, api).jobs && n !in s.jobs && Pass(s, spec, api).jobs[n].purpose.RestoreJob?
    ensures var s' := Pass(s, spec, api);
            var p := s'.jobs[n].purpose;
            && (forall d | d in spec.deployments && d in spec.clients :: d in p.stopped && R.PodsOf(s.pods, d) == 0)
            && Jobs.Running(s.jobs, Backups(s.jobs)) == {} && Jobs.Running(s'.jobs, Backups(s'.jobs)) == {}
            && (s'.scheduled <==> KeepsSchedule(s, spec, api)) && (p.quiet <==> !KeepsSchedule(s, spec, api))
            && InFlight(s'.jobs[n])
  {
    hide CarryOut, D.PlanDatabase;
    P.PlanTouches(spec.database, s.postgres, s.jobs, s.now, api.database);
    match D.PlanDatabase(spec.database, s.postgres, s.jobs, s.now, api.database)
    case Unknown =>
    case Decided(plan, jobs) =>
      assert Backups(jobs) == Backups(s.jobs);
      CarryOutStarts(s.(jobs := jobs), spec, plan, api, n);
  }

  lemma CarryOutStarts(s: State, spec: Spec, plan: D.Plan, api: Api, n: Name)
    requires spec.database.bundled && n in CarryOut(s, spec, plan, api).jobs && n !in s.jobs && CarryOut(s, spec, plan, api).jobs[n].purpose.RestoreJob?
    ensures var s' := CarryOut(s, spec, plan, api);
            var p := s'.jobs[n].purpose;
            && (forall d | d in spec.deployments && d in spec.clients :: d in p.stopped && R.PodsOf(s.pods, d) == 0)
            && Jobs.Running(s.jobs, Backups(s.jobs)) == {} && Jobs.Running(s'.jobs, Backups(s'.jobs)) == {}
            && (s'.scheduled <==> KeepsSchedule(s, spec, api)) && (p.quiet <==> !KeepsSchedule(s, spec, api))
            && InFlight(s'.jobs[n])
  {
    hide CarryOut, Finish, ApplyAll, ApplySome, Switched, PlanRestore, Rendered, StillScheduled;
    var planned := PlanRestore(s, spec, plan);
    var s1 := Switched(s, plan);
    SwitchedSame(s, plan);
    ApplySame(s1, spec, plan.volume, planned.dump, api);
    if Broken(plan, api) {
      BreaksOff(s, spec, plan, api);
    } else {
      var all := ApplyAll(s1, spec, plan.volume, planned.dump, api);
      GoesOn(s, spec, plan, api);
      FinishStarts(all, spec, plan, planned, api, n);
      FinishLeaves(all, spec, plan, planned, api, n);
      PlanDump(s, spec, plan);
      StopsClients(spec, planned.dump);
      ScheduleKept(s1, spec, plan.volume, planned.dump, api);
    }
  }

  lemma ScheduleKept(s: State, spec: Spec, volume: Option<Volume>, dump: Option<string>, api: Api)
    requires dump.Some? && spec.database.bundled
    ensures StillScheduled(ApplyAll(s, spec, volume, dump, api), spec, api) <==> KeepsSchedule(s, spec, api)
  {
  }

  /**
   * Beside the restore Job a pass has begun, a scheduled backup runs if and only if its
   * schedule was turned off and could be neither pruned nor removed.
   */
  lemma BackupMeetsRestoreIff(s: State, spec: Spec, api: Api, n: Name, b: Name)
    requires spec.database.bundled && n in Pass(s, spec, api).jobs && n !in s.jobs && Pass(s, spec, api).jobs[n].purpose.RestoreJob?
    requires b !in Pass(s, spec, api).jobs
    ensures var s' := Do(Pass(s, spec, api), BackupStarts(b));
            && n in s'.jobs && Restoring(s'.jobs[n])
            && (Jobs.Running(s'.jobs, Backups(s'.jobs)) != {} <==> KeepsSchedule(s, spec, api))
  {
    hide Pass, KeepsSchedule;
    StartsWithAllDown(s, spec, api, n);
    BackupAppearsIff(Pass(s, spec, api), BackupStarts(b));
  }

  /** Between passes a backup comes to run only by its schedule, or because someone makes one. */
  lemma BackupAppearsIff(s: State, e: Event)
    requires !e.Reconcile? && Jobs.Running(s.jobs, Backups(s.jobs)) == {}
    ensures var jobs := Do(s, e).jobs;
            Jobs.Running(jobs, Backups(jobs)) != {} <==>
              || (e.BackupStarts? && s.scheduled && e.name !in s.jobs)
              || (e.Stranger? && e.name !in s.jobs && !e.job.ours && e.job.purpose.BackupJob? && e.job.outcome.Unfinished? && !e.job.deleting)
  {
    hide Pass;
    var jobs := Do(s, e).jobs;
    forall m | m in Backups(s.jobs)
      ensures !s.jobs[m].outcome.Unfinished?
    {
      assert m !in Jobs.Running(s.jobs, Backups(s.jobs));
    }
    if (e.BackupStarts? && s.scheduled && e.name !in s.jobs)
       || (e.Stranger? && e.name !in s.jobs && !e.job.ours && e.job.purpose.BackupJob? && e.job.outcome.Unfinished? && !e.job.deleting) {
      assert e.name in Jobs.Running(jobs, Backups(jobs));
    }
  }

  lemma StopsClients(spec: Spec, dump: Option<string>)
    requires dump.Some? && spec.database.bundled
    ensures forall d | d in spec.deployments && d in spec.clients :: d in R.Stopped(Rendered(spec, dump))
  {
  }

  lemma PlanDump(s: State, spec: Spec, plan: D.Plan)
    ensures PlanRestore(s, spec, plan).dump == R.InProgress(PlanRestore(s, spec, plan).restore)
  {
  }

  lemma FinishStarts(s: State, spec: Spec, plan: D.Plan, planned: R.Planned, api: Api, n: Name)
    requires var s' := Finish(s, spec, plan, planned, api); n in s'.jobs && n !in s.jobs && s'.jobs[n].purpose.RestoreJob?
    ensures R.InProgress(planned.restore).Some?
    ensures var p := Finish(s, spec, plan, planned, api).jobs[n].purpose;
            && (forall d | d in R.Stopped(Rendered(spec, planned.dump)) :: d in p.stopped && R.PodsOf(s.pods, d) == 0)
            && p.quiet == !StillScheduled(s, spec, api)
            && Jobs.Running(s.jobs, Backups(s.jobs)) == {}
  {
    hide Finish, StepRestore, JobsCopied, R.StepRestore, Rendered, R.InProgress, StillScheduled;
    var copied := JobsCopied(s, spec, plan, planned.dump, api);
    CopyTouches(s, spec, plan, planned.dump, api);
    var stepped := StepRestore(s, spec, plan, planned, api);
    if !api.fault.Components? {
      RestTouches(s, spec, plan, planned, api);
    } else {
      FinishJobs(s, spec, plan, planned, api);
    }
    StepIs(s, spec, plan, planned, api);
    P.StepRestoreTouches(planned.restore, copied, s.pods, Rendered(spec, planned.dump), StillScheduled(s, spec, api), s.now, api.restore);
    assert n in stepped.jobs && n !in copied;
    assert Jobs.Running(copied, Backups(copied)) == Jobs.Running(s.jobs, Backups(s.jobs));
    StepStarts(planned.restore, copied, s.pods, Rendered(spec, planned.dump), StillScheduled(s, spec, api), s.now, api.restore, n);
  }

  /** The rest of such a pass starts no backup, and leaves the Job unfinished. */
  lemma FinishLeaves(s: State, spec: Spec, plan: D.Plan, planned: R.Planned, api: Api, n: Name)
    requires Jobs.Running(s.jobs, Backups(s.jobs)) == {}
    requires var s' := Finish(s, spec, plan, planned, api); n in s'.jobs && n !in s.jobs && s'.jobs[n].purpose.RestoreJob?
    ensures var s' := Finish(s, spec, plan, planned, api);
            Jobs.Running(s'.jobs, Backups(s'.jobs)) == {} && s'.scheduled == StillScheduled(s, spec, api) && InFlight(s'.jobs[n])
  {
    hide Finish, StepRestore, JobsCopied, StillScheduled;
    var copied := JobsCopied(s, spec, plan, planned.dump, api);
    CopyTouches(s, spec, plan, planned.dump, api);
    P.FinishTouches(s, spec, plan, planned, api);
    FinishSchedules(s, spec, plan, planned, api);
    var jobs' := Finish(s, spec, plan, planned, api).jobs;
    assert Jobs.Running(copied, Backups(copied)) == Jobs.Running(s.jobs, Backups(s.jobs));
    assert Jobs.Running(jobs', Backups(jobs')) == Jobs.Running(copied, Backups(copied));
  }

  lemma FinishSchedules(s: State, spec: Spec, plan: D.Plan, planned: R.Planned, api: Api)
    ensures Finish(s, spec, plan, planned, api).scheduled == StillScheduled(s, spec, api)
  {
    hide StepRestore, JobsCopied, ConfigureRealm, Verify, StillScheduled;
  }

  lemma FinishJobs(s: State, spec: Spec, plan: D.Plan, planned: R.Planned, api: Api)
    requires api.fault.Components?
    ensures Finish(s, spec, plan, planned, api).jobs == StepRestore(s, spec, plan, planned, api).jobs
  {
  }

  lemma StepIs(s: State, spec: Spec, plan: D.Plan, planned: R.Planned, api: Api)
    ensures StepRestore(s, spec, plan, planned, api)
         == R.StepRestore(planned.restore, JobsCopied(s, spec, plan, planned.dump, api), s.pods,
                          Rendered(spec, planned.dump), StillScheduled(s, spec, api), s.now, api.restore)
  {
  }

  lemma StepStarts(restore: Option<R.Status>, jobs: Table, pods: map<string, nat>, render: map<string, nat>,
                   scheduled: bool, now: Time, api: R.Api, n: Name)
    requires var stepped := R.StepRestore(restore, jobs, pods, render, scheduled, now, api); n in stepped.jobs && n !in jobs
    ensures R.InProgress(restore).Some? && restore.Some? && restore.value.result.Stopping?
    ensures var j := R.StepRestore(restore, jobs, pods, render, scheduled, now, api).jobs[n];
            && j.purpose == RestoreJob(R.InProgress(restore).value, R.Stopped(render), !scheduled)
            && (forall d | d in R.Stopped(render) :: R.PodsOf(pods, d) == 0)
            && Jobs.Running(jobs, Backups(jobs)) == {}
  {
    assert forall d | d in R.Stopped(render) && R.PodsOf(pods, d) > 0 :: d in R.ClientsUp(render, pods, api);
  }

  // ---- a request is answered once ----

  /** The passes ask for q, or for nothing. */
  predicate AllAsk(events: seq<Event>, q: string) {
    forall i | 0 <= i < |events| :: events[i].Reconcile? ==> events[i].spec.restoreRequest in {"", q}
  }

  predicate Answers(restore: Option<R.Status>, q: string) {
    restore.Some? && restore.value.request == q && !(restore.value.result in {R.Stopping, R.Running})
  }

  lemma AnsweredPass(s: State, spec: Spec, api: Api, q: string)
    requires Answers(s.status.restore, q) && spec.restoreRequest in {"", q}
    ensures Pass(s, spec, api).status.restore == s.status.restore && Pass(s, spec, api).restoreJobs == s.restoreJobs
  {
    hide D.PlanDatabase, Finish, CarryOut, ApplyAll, ApplySome, Switched;
    match D.PlanDatabase(spec.database, s.postgres, s.jobs, s.now, api.database)
    case Unknown =>
    case Decided(plan, jobs) =>
      var s0 := s.(jobs := jobs);
      var planned := PlanRestore(s0, spec, plan);
      SwitchedSame(s0, plan);
      ApplySame(Switched(s0, plan), spec, plan.volume, planned.dump, api);
      if Broken(plan, api) {
        BreaksOff(s0, spec, plan, api);
      } else {
        GoesOn(s0, spec, plan, api);
        AnsweredFinish(ApplyAll(Switched(s0, plan), spec, plan.volume, planned.dump, api), spec, plan, planned, api);
      }
  }

  lemma AnsweredFinish(s: State, spec: Spec, plan: D.Plan, planned: R.Planned, api: Api)
    requires planned == R.Planned(s.status.restore, None) && R.InProgress(planned.restore).None?
    ensures Finish(s, spec, plan, planned, api).status.restore == s.status.restore
    ensures Finish(s, spec, plan, planned, api).restoreJobs == s.restoreJobs
  {
    hide JobsCopied, ConfigureRealm, Verify;
    assert StepRestore(s, spec, plan, planned, api).jobs == JobsCopied(s, spec, plan, planned.dump, api);
  }

  /** A request with a result starts nothing more, however long the annotation stays, whatever is lost. */
  lemma {:induction false} AnsweredOnce(s: State, events: seq<Event>, q: string)
    requires Answers(s.status.restore, q) && AllAsk(events, q)
    ensures Run(s, events).status.restore == s.status.restore && Run(s, events).restoreJobs == s.restoreJobs
    decreases |events|
  {
    hide Pass;
    if events != [] {
      match events[0] {
        case Reconcile(spec, api) =>
          assert events[0].spec.restoreRequest in {"", q};
          AnsweredPass(s, spec, api, q);
        case _ =>
      }
      assert AllAsk(events[1..], q);
      AnsweredOnce(Do(s, events[0]), events[1..], q);
    }
  }
}
