/**
 * What becomes of a verification: when a run begins, what status says of it, and how its
 * verdict reaches status.
 */
module VerificationResults {
  import opened Basics
  import opened Jobs
  import opened Platform
  import P = PlatformDatabase
  import PR = PlatformRestore
  import PM = PlatformRealm
  import PV = PlatformVerification
  import RR = RestoreResults
  import D = Database
  import R = Restore
  import K = RealmRun
  import V = Verification

  predicate OwnRun(j: Job) {
    j.ours && j.purpose.VerifyJob?
  }

  predicate KeptRun(j: Job) {
    OwnRun(j) && !j.deleting
  }

  /** The run made last of those kept; of two made at once, the one named first. */
  predicate Last(jobs: Table, m: Name) {
    && m in jobs && KeptRun(jobs[m])
    && forall k | k in jobs && KeptRun(jobs[k]) :: jobs[k].created < jobs[m].created || (jobs[k].created == jobs[m].created && m <= k)
  }

  predicate AnyKept(jobs: Table) {
    exists m :: m in jobs && KeptRun(jobs[m])
  }

  lemma LastIsNewest(jobs: Table)
    ensures VerifyRuns(jobs) == {} <==> !AnyKept(jobs)
    ensures VerifyRuns(jobs) != {} ==> Last(jobs, Newest(jobs, VerifyRuns(jobs)))
    ensures forall m, k | Last(jobs, m) && Last(jobs, k) :: m == k
  {
    assert forall m :: m in VerifyRuns(jobs) <==> m in jobs && KeptRun(jobs[m]);
    if VerifyRuns(jobs) != {} {
      var n := Newest(jobs, VerifyRuns(jobs));
      assert n in VerifyRuns(jobs);
    }
  }

  // ---- reading the run in flight ----

  /** Run m as its Job tells of it, `result` being how it stands. */
  function Told(jobs: Table, m: Name, answered: string, result: V.Result): V.Status
    requires m in jobs && jobs[m].purpose.VerifyJob?
  {
    var p := jobs[m].purpose;
    V.Status(result, p.trigger, if p.trigger == ByRequest && p.request != "" then p.request else answered, p.fingerprint, p.version, Some(m))
  }

  /** What is published of a job: its verdict once it has finished and could be read. */
  function Standing(j: Job, api: V.Api): V.Result {
    if api.podsRead && !j.outcome.Unfinished? then api.verdict else V.Running
  }

  /**
   * The run that status names is published as it stands; where it has gone, the run that
   * replaced it, with what that one was made for, or Error where there is none; and nothing
   * changes where the Jobs could not be read.
   */
  ghost predicate CollectAnswer(v: V.Status, jobs: Table, api: V.Api, r: V.Status) {
    if v.job.Some? && !api.jobRead then r == v
    else if v.job.Some? && v.job.value in jobs then r == v.(result := Standing(jobs[v.job.value], api))
    else if !api.listed then r == v
    else if !AnyKept(jobs) then r == v.(result := V.Error)
    else exists m :: Last(jobs, m) && r == Told(jobs, m, v.request, Standing(jobs[m], api))
  }

  lemma CollectIs(v: V.Status, jobs: Table, api: V.Api)
    requires v.result.Running?
    ensures CollectAnswer(v, jobs, api, V.Collect(v, jobs, api))
  {
    LastIsNewest(jobs);
    var runs := VerifyRuns(jobs);
    if runs != {} {
      assert V.Collect(v, jobs, api) == V.Collect(v, jobs, api) && Last(jobs, Newest(jobs, runs));
    }
  }

  // ---- starting one ----

  function Answered(prev: Option<V.Status>): string {
    if prev.Some? then prev.value.request else ""
  }

  predicate ByRequestNow(prev: Option<V.Status>, ask: V.Ask) {
    ask.request != "" && ask.request != Answered(prev)
  }

  /** The platform is Ready, and this request has no answer yet or this platform no run. */
  predicate Asks(prev: Option<V.Status>, ask: V.Ask, ready: bool) {
    ready && (ByRequestNow(prev, ask) || prev.None? || prev.value.fingerprint != ask.fingerprint)
  }

  predicate Underway(jobs: Table) {
    exists m :: m in jobs && KeptRun(jobs[m]) && jobs[m].outcome.Unfinished?
  }

  /** All goes well for a run to begin. */
  predicate CanStart(jobs: Table, api: V.Api) {
    && api.startListed && !Underway(jobs) && (forall m | m in jobs && OwnRun(jobs[m]) :: m in api.deletable)
    && api.hook && api.account && api.creates && api.name !in jobs
  }

  /** The status of what was asked, as it is taken up. */
  function TakenUp(prev: Option<V.Status>, ask: V.Ask, result: V.Result, job: Option<Name>): V.Status {
    var asked := ByRequestNow(prev, ask);
    V.Status(result, if asked then ByRequest else ByUpdate, if asked then ask.request else Answered(prev), ask.fingerprint, ask.version, job)
  }

  function JobFor(prev: Option<V.Status>, ask: V.Ask): Purpose {
    var asked := ByRequestNow(prev, ask);
    VerifyJob(if asked then ByRequest else ByUpdate, ask.fingerprint, ask.version, if asked then ask.request else "")
  }

  /**
   * One step of the self-test. A run in flight is read and no other begun; without one,
   * what is asked is taken up: by following a run that is under way, by a new run where all
   * goes well for it, the earlier ones deleted, and with Error otherwise.
   */
  ghost predicate StepAnswer(prev: Option<V.Status>, jobs: Table, ask: V.Ask, ready: bool, now: Time, api: V.Api,
                       v: Option<V.Status>, jobs': Table) {
    if prev.Some? && prev.value.result.Running? then
      jobs' == jobs && v.Some? && CollectAnswer(prev.value, jobs, api, v.value)
    else if !Asks(prev, ask, ready) then jobs' == jobs && v == prev
    else if api.startListed && Underway(jobs) then
      jobs' == jobs && exists m :: m in jobs && KeptRun(jobs[m]) && jobs[m].outcome.Unfinished? && v == Some(Told(jobs, m, Answered(prev), V.Running))
    else
      && v == Some(if CanStart(jobs, api) then TakenUp(prev, ask, V.Running, Some(api.name)) else TakenUp(prev, ask, V.Error, None))
      && jobs'.Keys == jobs.Keys + (if CanStart(jobs, api) then {api.name} else {})
      && (CanStart(jobs, api) ==> jobs'[api.name] == Made(JobFor(prev, ask), now))
      && forall m | m in jobs ::
           jobs'[m] == if api.startListed && OwnRun(jobs[m]) && m in api.deletable then jobs[m].(deleting := true) else jobs[m]
  }

  lemma StepIs(prev: Option<V.Status>, jobs: Table, ask: V.Ask, ready: bool, now: Time, api: V.Api)
    ensures var r := V.Step(true, prev, jobs, ask, ready, now, api);
            && StepAnswer(prev, jobs, ask, ready, now, api, r.status, r.jobs)
            && (r.soon <==> r.status.Some? && (r.status.value.result.Running?
                                               || (prev.Some? && prev.value.result.Running? && Asks(r.status, ask, ready))))
  {
    hide V.Collect, V.StartRun, CollectAnswer, Underway, CanStart, TakenUp, JobFor, Told;
    if prev.Some? && prev.value.result.Running? {
      CollectIs(prev.value, jobs, api);
    } else if Asks(prev, ask, ready) {
      StartIs(prev, jobs, ask, now, api);
    }
  }

  lemma StartIs(prev: Option<V.Status>, jobs: Table, ask: V.Ask, now: Time, api: V.Api)
    ensures var asked := ByRequestNow(prev, ask);
            var (v, jobs') := V.StartRun(if asked then ByRequest else ByUpdate, ask, Answered(prev), jobs, now, api);
            if api.startListed && Underway(jobs) then
              jobs' == jobs && exists m :: m in jobs && KeptRun(jobs[m]) && jobs[m].outcome.Unfinished? && v == Told(jobs, m, Answered(prev), V.Running)
            else
              && v == (if CanStart(jobs, api) then TakenUp(prev, ask, V.Running, Some(api.name)) else TakenUp(prev, ask, V.Error, None))
              && jobs'.Keys == jobs.Keys + (if CanStart(jobs, api) then {api.name} else {})
              && (CanStart(jobs, api) ==> jobs'[api.name] == Made(JobFor(prev, ask), now))
              && forall m | m in jobs ::
                   jobs'[m] == if api.startListed && OwnRun(jobs[m]) && m in api.deletable then jobs[m].(deleting := true) else jobs[m]
  {
    hide Newest;
    var running := Jobs.Running(jobs, VerifyRuns(jobs));
    assert forall m :: m in running <==> m in jobs && KeptRun(jobs[m]) && jobs[m].outcome.Unfinished?;
    assert running != {} <==> Underway(jobs) by {
      if running != {} { var m :| m in running; }
    }
    assert forall m :: m in AllVerifyRuns(jobs) <==> m in jobs && OwnRun(jobs[m]);
    if running != {} {
      var first := Newest(jobs, running);
      assert first in running;
    }
  }

  /** Turned off, nothing is begun, and a run in flight goes. */
  lemma DisabledIs(prev: Option<V.Status>, jobs: Table, ask: V.Ask, ready: bool, now: Time, api: V.Api)
    ensures var r := V.Step(false, prev, jobs, ask, ready, now, api);
            && r.status == Some(V.Status(V.Skipped, NoTrigger, Answered(prev), "", ask.version, None)) && !r.soon
            && r.jobs.Keys == jobs.Keys
            && forall m | m in jobs ::
                 r.jobs[m] == if prev.Some? && prev.value.result.Running? && OwnRun(jobs[m]) && m in api.deletable
                              then jobs[m].(deleting := true) else jobs[m]
  {
  }

  // ---- the readiness of the platform ----

  /** The Postgres is ready, and every Deployment runs all the replicas it was just applied with, at least one, and has not stalled. */
  predicate AllUp(spec: Spec, dump: Option<string>, api: Api) {
    api.postgresReady &&
    forall d | d in spec.deployments ::
      var n := if dump.Some? && spec.database.bundled && d in spec.clients then 0 else spec.deployments[d];
      1 <= n <= Available(api, d) && d !in api.stalled
  }

  /** A realm run is under way, due on a Keycloak that is up, or not to be told. */
  predicate RealmPending(s: State, spec: Spec, jobs: Table, dump: Option<string>, api: Api) {
    spec.realm.Some? && (!api.realm.listed || PM.Underway(jobs) || (PM.Due(spec.realm.value, jobs, s.now) && PM.KeycloakUp(spec, dump, api)))
  }

  /** All is up, and neither a restore nor a realm run is in flight or due: what a pass that copies nothing finds. */
  predicate Ready(s: State, spec: Spec, planned: R.Planned, api: Api) {
    var stepped := PM.RestoreStep(s, spec, planned, api);
    AllUp(spec, planned.dump, api) && !stepped.inFlight && !RealmPending(s, spec, stepped.jobs, planned.dump, api)
  }

  lemma ReadyIs(s: State, spec: Spec, dump: Option<string>, api: Api)
    requires PM.Applied(s, spec, dump)
    ensures AllReady(s.replicas, Rendered(spec, dump), api) <==> AllUp(spec, dump, api)
  {
  }

  /** What a pass hands to the self-test: its readiness, and, being Ready, the Jobs it found with none made. */
  lemma HandedIs(s: State, spec: Spec, plan: D.Plan, planned: R.Planned, api: Api)
    requires (plan.start ==> plan.copying) && PM.Applied(s, spec, planned.dump)
    ensures var (jobs, ready) := PV.Handed(s, spec, plan, planned, api);
            && (ready <==> !plan.copying && Ready(s, spec, planned, api))
            && (ready ==> jobs.Keys == s.jobs.Keys)
  {
    hide StepRestore, JobsCopied, R.StepRestore, K.ConfigureRealm, K.KeycloakAvailable, Rendered, AllReady, KeycloakSeen, AllUp,
         PM.KeycloakUp, V.IsRunning, PM.Applied, StillScheduled, PM.Due, PM.Underway;
    var render := Rendered(spec, planned.dump);
    var scheduled := StillScheduled(s, spec, api);
    var stepped := StepRestore(s, spec, plan, planned, api);
    PR.StepIs(s, spec, plan, planned, api);
    ReadyIs(s, spec, planned.dump, api);
    PM.SeenIsApplied(s, spec, planned.dump, api);
    var keycloak, hold := KeycloakSeen(s.replicas, render, api), plan.copying || stepped.inFlight;
    PM.ConfigureIs(spec.realm, stepped.jobs, keycloak, hold, V.IsRunning(s.status.verification), s.now, api.realm);
    PM.ConfigureBeginsIff(spec.realm, stepped.jobs, keycloak, hold, V.IsRunning(s.status.verification), s.now, api.realm);
    if !plan.copying {
      PM.NothingCopied(s, spec, plan, planned.dump, api);
      PM.ScheduleAside(planned.restore, s.jobs, s.pods, render, scheduled, s.scheduled, s.now, api.restore);
      if !stepped.inFlight { QuietStep(planned.restore, s.jobs, s.pods, render, s.scheduled, s.now, api.restore); }
    }
    var jobs' := ConfigureRealm(s, spec, plan, planned, stepped, api).jobs;
    assert forall m | m in jobs' && m !in stepped.jobs :: PM.NewRealmRun(stepped.jobs, jobs', m);
  }

  /** A step that leaves no restore in flight makes no Job. */
  lemma QuietStep(restore: Option<R.Status>, jobs: Table, pods: map<string, nat>, render: map<string, nat>, scheduled: bool, now: Time, api: R.Api)
    requires !R.StepRestore(restore, jobs, pods, render, scheduled, now, api).inFlight
    ensures R.StepRestore(restore, jobs, pods, render, scheduled, now, api).jobs.Keys == jobs.Keys
  {
    hide R.ClientsUp, Backups, AllRestores, Jobs.Running, R.DumpOf, RealmRuns, R.Stopped;
  }

  // ---- a pass ----

  predicate NewRun(before: Table, after: Table, m: Name) {
    m in after && m !in before && after[m].purpose.VerifyJob?
  }

  /** The pass gets to the self-test with the platform Ready. */
  ghost predicate FindsReady(s: State, spec: Spec, api: Api) {
    match D.PlanDatabase(spec.database, s.postgres, s.jobs, s.now, api.database)
    case Unknown => false
    case Decided(plan, _) =>
      && !api.fault.Deferred? && !PR.Broken(plan, api) && !api.fault.Components?
      && !plan.copying && Ready(s, spec, PlanRestore(s, spec, plan), api)
  }

  /** What PlatformVerification calls Ready is this. */
  lemma ReachedIs(s: State, spec: Spec, api: Api)
    ensures FindsReady(s, spec, api) <==> PV.Reached(s, spec, api).Some? && PV.Reached(s, spec, api).value.1
    ensures FindsReady(s, spec, api) ==> PV.Reached(s, spec, api).value.0.Keys == s.jobs.Keys
  {
    hide D.PlanDatabase, PlanRestore, ApplyAll, Switched, Rendered, PV.Handed, Ready;
    PM.PlanIsPlain(spec.database, s.postgres, s.jobs, s.now, api.database);
    match D.PlanDatabase(spec.database, s.postgres, s.jobs, s.now, api.database)
    case Unknown =>
    case Decided(plan, jobs) =>
      var s0 := s.(jobs := jobs);
      var planned := PlanRestore(s0, spec, plan);
      var all := ApplyAll(Switched(s0, plan), spec, plan.volume, planned.dump, api);
      PR.SwitchedSame(s0, plan);
      PR.ApplySame(Switched(s0, plan), spec, plan.volume, planned.dump, api);
      HandedIs(all, spec, plan, planned, api);
      SamePlanned(s, jobs, spec, plan);
      if !plan.copying { ReadyAside(s0, spec, plan, planned, api); }
  }

  lemma SamePlanned(s: State, jobs: Table, spec: Spec, plan: D.Plan)
    ensures PlanRestore(s.(jobs := jobs), spec, plan) == PlanRestore(s, spec, plan)
  {
  }

  lemma ReadyAside(s: State, spec: Spec, plan: D.Plan, planned: R.Planned, api: Api)
    ensures Ready(ApplyAll(Switched(s, plan), spec, plan.volume, planned.dump, api), spec, planned, api) <==> Ready(s, spec, planned, api)
  {
    hide R.StepRestore, AllUp, PM.KeycloakUp, PM.Due, PM.Underway, Rendered;
    var all := ApplyAll(Switched(s, plan), spec, plan.volume, planned.dump, api);
    PM.ScheduleAside(planned.restore, s.jobs, s.pods, Rendered(spec, planned.dump), all.scheduled, s.scheduled, s.now, api.restore);
  }

  /** The pass takes up what is asked with a run of its own. */
  ghost predicate Begins(s: State, spec: Spec, api: Api) {
    && FindsReady(s, spec, api) && !(s.status.verification.Some? && s.status.verification.value.result.Running?)
    && Asks(s.status.verification, Asked(spec), true) && CanStart(s.jobs, api.verification)
  }

  /** A pass begins a verification run if and only if the platform is Ready, a run is asked for and can start, and status names none. */
  lemma BeginsIff(s: State, spec: Spec, api: Api)
    requires spec.verification
    ensures (exists m :: NewRun(s.jobs, Pass(s, spec, api).jobs, m)) <==> Begins(s, spec, api)
    ensures Begins(s, spec, api) ==>
              var n, s' := api.verification.name, Pass(s, spec, api);
              && n in s'.jobs && s'.jobs[n] == Made(JobFor(s.status.verification, Asked(spec)), s.now)
              && (!api.fault.StatusWrite? ==> s'.status.verification == Some(TakenUp(s.status.verification, Asked(spec), V.Running, Some(n))))
  {
    hide Pass, PV.Reached, FindsReady, V.Step, CollectAnswer, Underway, TakenUp, Told;
    PV.PassIsAStep(s, spec, api);
    ReachedIs(s, spec, api);
    match PV.Reached(s, spec, api)
    case None => NoneNew(s.jobs, Pass(s, spec, api).jobs);
    case Some((jobs, ready)) =>
      StepIs(s.status.verification, jobs, Asked(spec), ready, s.now, api.verification);
      SameCan(s.jobs, jobs, api.verification);
      NoneNew(s.jobs, jobs);
      if Begins(s, spec, api) { assert NewRun(s.jobs, Pass(s, spec, api).jobs, api.verification.name); }
  }

  lemma NoneNew(a: Table, b: Table)
    requires Touches(a, b, PV.OTHERS, PV.OTHERS)
    ensures forall m :: !NewRun(a, b, m)
  {
  }

  lemma SameCan(a: Table, b: Table, api: V.Api)
    requires Touches(a, b, PV.OTHERS, PV.OTHERS)
    ensures b.Keys == a.Keys ==> (CanStart(a, api) <==> CanStart(b, api))
    ensures Underway(a) <==> Underway(b)
  {
    if Underway(a) { var m :| m in a && KeptRun(a[m]) && a[m].outcome.Unfinished?; assert b[m] == a[m]; }
    if Underway(b) { var m :| m in b && KeptRun(b[m]) && b[m].outcome.Unfinished?; assert m in a && b[m] == a[m]; }
    assert forall m | m in a && OwnRun(a[m]) :: m in b && b[m] == a[m];
    assert forall m | m in b && OwnRun(b[m]) :: m in a && b[m] == a[m];
  }

  /**
   * The verdict of a run in flight reaches status in each pass that completes: of the run
   * that status names, as its Job stands, no other having been made under its name.
   */
  lemma VerdictReachesStatus(s: State, spec: Spec, api: Api)
    requires spec.verification && s.status.verification.Some? && s.status.verification.value.result.Running?
    requires var job := s.status.verification.value.job;
             job.Some? && job.value in Pass(s, spec, api).jobs ==> job.value in s.jobs
    ensures var v, v' := s.status.verification.value, Pass(s, spec, api).status.verification;
            if RR.Completes(s, spec, api) then v'.Some? && CollectAnswer(v, s.jobs, api.verification, v'.value)
            else v' == Some(v)
  {
    hide Pass, PV.Reached, V.Step, CollectAnswer, D.PlanDatabase;
    PV.PassIsAStep(s, spec, api);
    CompletesReaches(s, spec, api);
    match PV.Reached(s, spec, api)
    case None =>
    case Some((jobs, ready)) =>
      StepIs(s.status.verification, jobs, Asked(spec), ready, s.now, api.verification);
      if !api.fault.StatusWrite? {
        SameAnswer(s.status.verification.value, s.jobs, jobs, api.verification, Pass(s, spec, api).status.verification.value);
      }
  }

  lemma CompletesReaches(s: State, spec: Spec, api: Api)
    ensures RR.Completes(s, spec, api) <==> PV.Reached(s, spec, api).Some? && !api.fault.StatusWrite?
  {
    hide D.PlanDatabase, PV.Handed, ApplyAll, Switched, PlanRestore;
  }

  /** What the rest of a pass does to other Jobs is nothing to the reading of a run. */
  lemma SameAnswer(v: V.Status, a: Table, b: Table, api: V.Api, r: V.Status)
    requires Touches(a, b, PV.OTHERS, PV.OTHERS) && (v.job.Some? && v.job.value in b ==> v.job.value in a)
    requires CollectAnswer(v, b, api, r)
    ensures CollectAnswer(v, a, api, r)
  {
    assert forall m :: (m in a && KeptRun(a[m])) <==> (m in b && KeptRun(b[m]));
    assert forall m | m in b && KeptRun(b[m]) :: a[m] == b[m];
    assert forall m :: Last(a, m) <==> Last(b, m);
  }
}
