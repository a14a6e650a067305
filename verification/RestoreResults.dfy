/**
 * What becomes of a restore: which request is taken up, refused or left, what each step
 * answers, and how that reaches status.
 */
module RestoreResults {
  import opened Basics
  import opened Jobs
  import opened Platform
  import P = PlatformDatabase
  import PR = PlatformRestore
  import D = Database
  import R = Restore

  /** A dump is named by the minute of its making, in digits and as many separators. */
  lemma DumpIs(s: string)
    ensures R.IsDump(s) <==>
              && |s| == 20 && s[4] == s[7] == s[13] == s[16] == '-' && s[10] == 'T' && s[19] == 'Z'
              && forall i | 0 <= i < 20 && i !in {4, 7, 10, 13, 16, 19} :: s[i] in "0123456789"
  {
    var shape := R.DUMP_SHAPE;
    assert shape[4] == shape[7] == shape[13] == shape[16] == '-' && shape[10] == 'T' && shape[19] == 'Z';
    assert forall i | 0 <= i < 20 && i !in {4, 7, 10, 13, 16, 19} :: shape[i] == 'd';
    forall c: char
      ensures c in "0123456789" <==> R.Digit(c)
    {
      var digits := "0123456789";
      if R.Digit(c) {
        var k := c as int - '0' as int;
        assert digits[k] == c;
      }
    }
  }

  // ---- the request ----

  /** A request that has neither a restore in flight before it nor a result. */
  predicate Asked(request: string, restore: Option<R.Status>) {
    R.InProgress(restore).None? && request != "" && !(restore.Some? && restore.value.request == request)
  }

  /**
   * A restore in flight goes on. A new request is refused if and only if the databases are
   * external or it names no dump, taken up if and only if it can start now, and otherwise
   * left for a later pass.
   */
  lemma PlanIs(bundled: bool, request: string, restore: Option<R.Status>, copying: bool, now: Time)
    ensures var planned := R.PlanRestore(bundled, request, restore, copying, now);
            var good := bundled && R.DumpOf(request).Some?;
            if !Asked(request, restore) then planned == R.Planned(restore, R.InProgress(restore))
            else if !good then planned == R.Planned(Some(R.Status(request, R.Refused, None, now, Some(now))), None)
            else if copying then planned == R.Planned(restore, None)
            else planned == R.Planned(Some(R.Status(request, R.Stopping, None, now, None)), R.DumpOf(request))
    ensures R.InProgress(restore).Some? <==>
              restore.Some? && restore.value.result in {R.Stopping, R.Running} && R.DumpOf(restore.value.request).Some?
  {
  }

  // ---- the Running step ----

  predicate JobGone(rs: R.Status, jobs: Table, api: R.Api) {
    rs.job.None? || (api.jobRead && rs.job.value !in jobs)
  }

  predicate JobRead(rs: R.Status, jobs: Table, api: R.Api) {
    rs.job.Some? && api.jobRead && rs.job.value in jobs && api.podsRead
  }

  /**
   * Succeeded if and only if the Job is there, read and complete; Refused if and only if it
   * failed and says so; Failed if it failed otherwise or is gone; and until then Running.
   */
  predicate RunningAnswer(rs: R.Status, jobs: Table, now: Time, api: R.Api, restore: Option<R.Status>) {
    && restore.Some?
    && (restore.value.result.Succeeded? <==> JobRead(rs, jobs, api) && jobs[rs.job.value].outcome.Complete?)
    && (restore.value.result.Refused? <==> JobRead(rs, jobs, api) && jobs[rs.job.value].outcome.Failed? && api.refused)
    && (restore.value.result.Failed? <==>
          JobGone(rs, jobs, api) || (JobRead(rs, jobs, api) && jobs[rs.job.value].outcome.Failed? && !api.refused))
    && (restore.value.result.Running? <==>
          !JobGone(rs, jobs, api) && (!JobRead(rs, jobs, api) || jobs[rs.job.value].outcome.Unfinished?))
    && restore.value == if restore.value.result.Running? then rs else rs.(result := restore.value.result, finishedAt := Some(now))
  }

  /** After a success every realm run that can be is deleted, and nothing else ever is. */
  predicate RealmCleared(jobs: Table, jobs': Table, succeeded: bool, api: R.Api) {
    && jobs'.Keys == jobs.Keys
    && forall n | n in jobs ::
         jobs'[n] == if succeeded && api.realmListed && n in api.deletable && jobs[n].ours && !jobs[n].deleting && jobs[n].purpose.RealmJob?
                     then jobs[n].(deleting := true) else jobs[n]
  }

  lemma RunningIs(rs: R.Status, jobs: Table, pods: map<string, nat>, render: map<string, nat>, scheduled: bool, now: Time, api: R.Api)
    requires rs.result.Running? && R.InProgress(Some(rs)).Some?
    ensures var stepped := R.StepRestore(Some(rs), jobs, pods, render, scheduled, now, api);
            && RunningAnswer(rs, jobs, now, api, stepped.restore)
            && (stepped.inFlight <==> stepped.restore.value.result.Running?)
            && RealmCleared(jobs, stepped.jobs, stepped.restore.value.result.Succeeded?, api)
  {
    hide R.DumpOf;
  }

  // ---- the Stopping step ----

  /** A Deployment the render stops still has a pod, or its pods could not be listed. */
  predicate ClientIsUp(render: map<string, nat>, pods: map<string, nat>, api: R.Api) {
    exists d :: d in render && render[d] == 0 && (d in api.unlisted || (d in pods && pods[d] > 0))
  }

  predicate BackupRuns(jobs: Table) {
    exists b :: b in jobs && jobs[b].purpose.BackupJob? && !jobs[b].deleting && jobs[b].outcome.Unfinished?
  }

  /** Nothing is to be waited for. */
  predicate Waits(jobs: Table, pods: map<string, nat>, render: map<string, nat>, api: R.Api) {
    ClientIsUp(render, pods, api) || !api.backupsListed || BackupRuns(jobs) || api.claim.Unread?
  }

  predicate OurRestore(j: Job) {
    j.ours && j.purpose.RestoreJob?
  }

  predicate AllDeletable(jobs: Table, api: R.Api) {
    forall n | n in jobs && OurRestore(jobs[n]) :: n in api.deletable
  }

  /**
   * The Stopping step waits for clients and backups, refuses without a claim or a Job to
   * make, and else deletes the earlier restore Jobs; it then goes on waiting where one of
   * them could not be, and fails where creating the new one does. Only what it says it
   * started it has made.
   */
  ghost predicate StoppingAnswer(rs: R.Status, dump: string, jobs: Table, pods: map<string, nat>, render: map<string, nat>, now: Time,
                           api: R.Api, stepped: R.Stepped) {
    var waits := Waits(jobs, pods, render, api);
    var deletes := !waits && api.claim.Present? && api.hook;
    && stepped.restore.Some? && (stepped.inFlight <==> stepped.restore.value.result in {R.Stopping, R.Running})
    && (stepped.restore.value.result.Stopping? <==> waits || (deletes && !AllDeletable(jobs, api)))
    && (stepped.restore.value.result.Refused? <==> !waits && (api.claim.Absent? || !api.hook))
    && (stepped.restore.value.result.Failed? <==> deletes && AllDeletable(jobs, api) && !(api.creates && api.name !in jobs))
    && (stepped.restore.value.result.Running? <==> deletes && AllDeletable(jobs, api) && api.creates && api.name !in jobs)
    && (forall n | n in jobs :: n in stepped.jobs &&
          stepped.jobs[n] == if deletes && OurRestore(jobs[n]) && n in api.deletable then jobs[n].(deleting := true) else jobs[n])
    && stepped.jobs.Keys == jobs.Keys + (if stepped.restore.value.result.Running? then {api.name} else {})
    && match stepped.restore.value.result
       case Stopping => stepped.restore.value == rs
       case Running =>
         && stepped.restore.value == rs.(result := R.Running, job := Some(api.name))
         && stepped.jobs[api.name].outcome.Unfinished? && Live(stepped.jobs[api.name]) && stepped.jobs[api.name].created == now
         && stepped.jobs[api.name].purpose.RestoreJob? && stepped.jobs[api.name].purpose.dump == dump
         && forall d :: d in stepped.jobs[api.name].purpose.stopped <==> d in render && render[d] == 0
       case result => stepped.restore.value == rs.(result := result, finishedAt := Some(now))
  }

  lemma StoppingIs(rs: R.Status, jobs: Table, pods: map<string, nat>, render: map<string, nat>, scheduled: bool, now: Time, api: R.Api)
    requires rs.result.Stopping? && R.InProgress(Some(rs)).Some?
    ensures StoppingAnswer(rs, R.InProgress(Some(rs)).value, jobs, pods, render, now, api,
                           R.StepRestore(Some(rs), jobs, pods, render, scheduled, now, api))
  {
    hide R.StepStopping, R.DumpOf, StoppingAnswer;
    StopsIs(rs, R.InProgress(Some(rs)).value, jobs, pods, render, scheduled, now, api);
  }

  lemma WaitsIs(jobs: Table, pods: map<string, nat>, render: map<string, nat>, api: R.Api)
    ensures R.ClientsUp(render, pods, api) != {} <==> ClientIsUp(render, pods, api)
    ensures Jobs.Running(jobs, Backups(jobs)) != {} <==> BackupRuns(jobs)
    ensures AllRestores(jobs) <= api.deletable <==> AllDeletable(jobs, api)
    ensures forall d :: d in R.Stopped(render) <==> d in render && render[d] == 0
  {
    if ClientIsUp(render, pods, api) {
      var d :| d in render && render[d] == 0 && (d in api.unlisted || (d in pods && pods[d] > 0));
      assert d in R.ClientsUp(render, pods, api);
    }
    if R.ClientsUp(render, pods, api) != {} {
      var d :| d in R.ClientsUp(render, pods, api);
      assert d in render && render[d] == 0;
    }
    if BackupRuns(jobs) {
      var b :| b in jobs && jobs[b].purpose.BackupJob? && !jobs[b].deleting && jobs[b].outcome.Unfinished?;
      assert b in Jobs.Running(jobs, Backups(jobs));
    }
    if Jobs.Running(jobs, Backups(jobs)) != {} {
      var b :| b in Jobs.Running(jobs, Backups(jobs));
      assert b in jobs;
    }
    if AllRestores(jobs) <= api.deletable {
      assert forall n | n in jobs && OurRestore(jobs[n]) :: n in AllRestores(jobs);
    }
  }

  lemma EndsWithoutSuccess(rs: R.Status, now: Time, api: R.Api)
    ensures forall result, jobs | result != R.Succeeded ::
              R.End(rs, result, jobs, now, api) == R.Stepped(Some(rs.(result := result, finishedAt := Some(now))), jobs, false)
  {
  }

  lemma StopsIs(rs: R.Status, dump: string, jobs: Table, pods: map<string, nat>, render: map<string, nat>, scheduled: bool, now: Time, api: R.Api)
    requires rs.result.Stopping?
    ensures StoppingAnswer(rs, dump, jobs, pods, render, now, api, R.StepStopping(rs, dump, jobs, pods, render, scheduled, now, api))
  {
    hide R.ClientsUp, Jobs.Running, Backups, R.Stopped, RealmRuns, ClientIsUp, BackupRuns, AllDeletable, R.End;
    WaitsIs(jobs, pods, render, api);
    EndsWithoutSuccess(rs, now, api);
  }

  // ---- a pass ----

  /** The pass decides about the database, applies, and writes its status at its end. */
  ghost predicate Completes(s: State, spec: Spec, api: Api) {
    match D.PlanDatabase(spec.database, s.postgres, s.jobs, s.now, api.database)
    case Unknown => false
    case Decided(plan, _) => !api.fault.Deferred? && !PR.Broken(plan, api) && !api.fault.Components? && !api.fault.StatusWrite?
  }

  /** What a restore Job has come to reaches status in each pass that completes, and in no other. */
  lemma ResultReachesStatus(s: State, spec: Spec, api: Api)
    requires s.status.restore.Some? && s.status.restore.value.result.Running? && R.InProgress(s.status.restore).Some?
    ensures var s' := Pass(s, spec, api);
            if Completes(s, spec, api) then RunningAnswer(s.status.restore.value, s.jobs, s.now, api.restore, s'.status.restore)
            else s'.status.restore == s.status.restore
  {
    hide CarryOut, D.PlanDatabase, R.InProgress;
    P.PlanTouches(spec.database, s.postgres, s.jobs, s.now, api.database);
    match D.PlanDatabase(spec.database, s.postgres, s.jobs, s.now, api.database)
    case Unknown =>
    case Decided(plan, jobs) =>
      if !api.fault.Deferred? { CarryOutAnswers(s.(jobs := jobs), spec, plan, api); }
  }

  lemma CarryOutAnswers(s: State, spec: Spec, plan: D.Plan, api: Api)
    requires s.status.restore.Some? && s.status.restore.value.result.Running? && R.InProgress(s.status.restore).Some?
    ensures var s' := CarryOut(s, spec, plan, api);
            if !PR.Broken(plan, api) && !api.fault.Components? && !api.fault.StatusWrite?
            then RunningAnswer(s.status.restore.value, s.jobs, s.now, api.restore, s'.status.restore)
            else s'.status.restore == s.status.restore
  {
    hide CarryOut, Finish, StepRestore, R.StepRestore, Switched, ApplySome, Rendered, R.InProgress, RunningAnswer, StillScheduled, JobsCopied;
    var planned := PlanRestore(s, spec, plan);
    PlanIs(spec.database.bundled, spec.restoreRequest, s.status.restore, plan.copying, s.now);
    PR.SwitchedSame(s, plan);
    PR.ApplySame(Switched(s, plan), spec, plan.volume, planned.dump, api);
    if PR.Broken(plan, api) {
      PR.BreaksOff(s, spec, plan, api);
    } else {
      var all := ApplyAll(Switched(s, plan), spec, plan.volume, planned.dump, api);
      PR.GoesOn(s, spec, plan, api);
      NowStays(s, plan);
      if api.fault.Components? || api.fault.StatusWrite? {
        FinishKeepsStatus(all, spec, plan, planned, api);
      } else {
        PR.FinishSums(all, spec, plan, planned, api);
        PR.StepIs(all, spec, plan, planned, api);
        NoCopy(all, spec, plan, planned.dump, api);
        RunningIs(planned.restore.value, all.jobs, all.pods, Rendered(spec, planned.dump), StillScheduled(all, spec, api), all.now, api.restore);
      }
    }
  }

  lemma NowStays(s: State, plan: D.Plan)
    ensures Switched(s, plan).now == s.now
  {
  }

  lemma FinishKeepsStatus(s: State, spec: Spec, plan: D.Plan, planned: R.Planned, api: Api)
    requires api.fault.Components? || api.fault.StatusWrite?
    ensures Finish(s, spec, plan, planned, api).status == s.status
  {
    hide StepRestore, JobsCopied, ConfigureRealm, Verify;
  }

  lemma NoCopy(s: State, spec: Spec, plan: D.Plan, dump: Option<string>, api: Api)
    ensures dump.Some? ==> JobsCopied(s, spec, plan, dump, api) == s.jobs
  {
  }

  /**
   * A pass that breaks off by the end of its apply writes just its decision, and that only
   * past the certificate and where the write comes through.
   */
  lemma BrokenPassNotes(s: State, spec: Spec, api: Api)
    ensures match D.PlanDatabase(spec.database, s.postgres, s.jobs, s.now, api.database)
            case Unknown => Pass(s, spec, api) == s
            case Decided(plan, _) =>
              api.fault.Deferred? || PR.Broken(plan, api) ==>
                Pass(s, spec, api).status ==
                if !api.noted || api.fault in {Deferred, Certificate} then s.status
                else s.status.(restore := PlanRestore(s, spec, plan).restore)
  {
    hide D.PlanDatabase, Finish, ApplySome, Switched, R.PlanRestore;
    match D.PlanDatabase(spec.database, s.postgres, s.jobs, s.now, api.database)
    case Unknown =>
    case Decided(plan, jobs) =>
      var s0 := s.(jobs := jobs);
      PR.SwitchedSame(s0, plan);
      PR.ApplySame(Switched(s0, plan), spec, plan.volume, PlanRestore(s0, spec, plan).dump, api);
  }

  // ---- how many Jobs a request has had ----

  predicate NewRestore(before: Table, after: Table, m: Name) {
    m in after && m !in before && after[m].purpose.RestoreJob?
  }

  /** Status has come to be about another request. */
  predicate TakenUp(before: Option<R.Status>, after: Option<R.Status>) {
    after.Some? && (before.None? || after.value.request != before.value.request)
  }

  /**
   * What the count counts, in every pass, wherever it breaks off and whatever is lost: the
   * restore Jobs made since status took up the request it is about.
   */
  lemma CountsTheJobs(s: State, spec: Spec, api: Api)
    ensures var s' := Pass(s, spec, api);
            s'.restoreJobs == (if TakenUp(s.status.restore, s'.status.restore) then 0 else s.restoreJobs)
                              + if exists m :: NewRestore(s.jobs, s'.jobs, m) then 1 else 0
  {
    hide CarryOut, D.PlanDatabase;
    P.PlanTouches(spec.database, s.postgres, s.jobs, s.now, api.database);
    match D.PlanDatabase(spec.database, s.postgres, s.jobs, s.now, api.database)
    case Unknown =>
    case Decided(plan, jobs) =>
      if !api.fault.Deferred? {
        CarryOutCounts(s.(jobs := jobs), spec, plan, api);
        assert forall m :: NewRestore(jobs, Pass(s, spec, api).jobs, m) <==> NewRestore(s.jobs, Pass(s, spec, api).jobs, m);
      }
  }

  lemma CarryOutCounts(s: State, spec: Spec, plan: D.Plan, api: Api)
    ensures var s' := CarryOut(s, spec, plan, api);
            s'.restoreJobs == (if TakenUp(s.status.restore, s'.status.restore) then 0 else s.restoreJobs)
                              + if exists m :: NewRestore(s.jobs, s'.jobs, m) then 1 else 0
  {
    hide CarryOut, Finish, ApplySome, ApplyAll, Rendered, R.InProgress, R.DumpOf;
    var planned := PlanRestore(s, spec, plan);
    TookUpIs(s, spec, plan);
    PR.SwitchedSame(s, plan);
    PR.ApplySame(Switched(s, plan), spec, plan.volume, planned.dump, api);
    if PR.Broken(plan, api) {
      PR.BreaksOff(s, spec, plan, api);
    } else {
      var all := ApplyAll(Switched(s, plan), spec, plan.volume, planned.dump, api);
      PR.GoesOn(s, spec, plan, api);
      FinishCounts(all, spec, plan, planned, api);
    }
  }

  lemma TookUpIs(s: State, spec: Spec, plan: D.Plan)
    ensures var planned := PlanRestore(s, spec, plan);
            TookUp(s.status.restore, planned) <==> TakenUp(s.status.restore, planned.restore)
  {
    hide R.DumpOf;
  }

  lemma FinishCounts(s: State, spec: Spec, plan: D.Plan, planned: R.Planned, api: Api)
    requires TookUp(s.status.restore, planned) <==> TakenUp(s.status.restore, planned.restore)
    ensures var s' := Finish(s, spec, plan, planned, api);
            s'.restoreJobs == (if TakenUp(s.status.restore, s'.status.restore) then 0 else s.restoreJobs)
                              + if exists m :: NewRestore(s.jobs, s'.jobs, m) then 1 else 0
  {
    hide Finish, R.StepRestore, StepRestore, JobsCopied, ConfigureRealm, Verify, Rendered, StillScheduled, TookUp, TakenUp, Touches;
    var copied, stepped, s' := JobsCopied(s, spec, plan, planned.dump, api), StepRestore(s, spec, plan, planned, api), Finish(s, spec, plan, planned, api);
    PR.StepIs(s, spec, plan, planned, api);
    FinishTallies(s, spec, plan, planned, api);
    SameRequest(planned.restore, copied, s.pods, Rendered(spec, planned.dump), StillScheduled(s, spec, api), s.now, api.restore);
    PR.CopyTouches(s, spec, plan, planned.dump, api);
    P.StepRestoreTouches(planned.restore, copied, s.pods, Rendered(spec, planned.dump), StillScheduled(s, spec, api), s.now, api.restore);
    if api.fault.Components? {
      PR.FinishJobs(s, spec, plan, planned, api);
    } else {
      PR.RestTouches(s, spec, plan, planned, api);
    }
    NewOnes(s.jobs, copied, stepped.jobs, s'.jobs);
    StaysItself(s.status.restore);
    TakenUpAsWell(s.status.restore, planned.restore, stepped.restore);
  }

  lemma StaysItself(restore: Option<R.Status>)
    ensures !TakenUp(restore, restore)
  {
  }

  lemma TakenUpAsWell(before: Option<R.Status>, planned: Option<R.Status>, after: Option<R.Status>)
    requires planned.Some? == after.Some? && (planned.Some? ==> planned.value.request == after.value.request)
    ensures TakenUp(before, planned) <==> TakenUp(before, after)
  {
  }

  lemma FinishTallies(s: State, spec: Spec, plan: D.Plan, planned: R.Planned, api: Api)
    ensures var s', stepped := Finish(s, spec, plan, planned, api), StepRestore(s, spec, plan, planned, api);
            var written := !api.fault.Components? && !api.fault.StatusWrite?;
            && s'.status.restore == (if written then stepped.restore else s.status.restore)
            && s'.restoreJobs == (if TookUp(s.status.restore, planned) && written then 0 else s.restoreJobs)
                                 + (if JobsCopied(s, spec, plan, planned.dump, api).Keys < stepped.jobs.Keys then 1 else 0)
  {
    hide StepRestore, JobsCopied, ConfigureRealm, Verify, StillScheduled, TookUp;
  }

  /** A step of the restore leaves its request. */
  lemma SameRequest(restore: Option<R.Status>, jobs: Table, pods: map<string, nat>, render: map<string, nat>, scheduled: bool, now: Time, api: R.Api)
    ensures var after := R.StepRestore(restore, jobs, pods, render, scheduled, now, api).restore;
            restore.Some? == after.Some? && (restore.Some? ==> restore.value.request == after.value.request)
  {
    hide R.ClientsUp, Backups, AllRestores, Jobs.Running, R.DumpOf, RealmRuns, R.Stopped, Delete;
  }

  /** Only the restore's step makes restore Jobs. */
  lemma NewOnes(a: Table, b: Table, c: Table, d: Table)
    requires Touches(a, b, {CopyKind}, {CopyKind}) && Touches(b, c, {RestoreKind}, {RestoreKind, RealmKind})
    requires d == c || Touches(c, d, {RealmKind, VerifyKind}, {RealmKind, VerifyKind})
    ensures (exists m :: NewRestore(a, d, m)) <==> b.Keys < c.Keys
  {
    if m :| NewRestore(a, d, m) { assert m in c && m !in b; }
    if b.Keys < c.Keys {
      var m :| m in c.Keys && m !in b.Keys;
      assert NewRestore(a, d, m);
    }
  }

  // ---- what a restore stops ----

  /** A restore is in flight, or the new request can start now. */
  predicate Restores(s: State, spec: Spec, copying: bool) {
    R.InProgress(s.status.restore).Some?
    || (Asked(spec.restoreRequest, s.status.restore) && spec.database.bundled && R.DumpOf(spec.restoreRequest).Some? && !copying)
  }

  /**
   * A pass that gets through its apply scales the clients of bundled databases to 0, and
   * holds the schedule of the backups it renders, if and only if a restore is in flight or
   * can start; every other Deployment is as the spec has it, and one it does not have is
   * gone or could not be pruned.
   */
  lemma StopsExactlyForARestore(s: State, spec: Spec, api: Api)
    ensures match D.PlanDatabase(spec.database, s.postgres, s.jobs, s.now, api.database)
            case Unknown => true
            case Decided(plan, _) =>
              !api.fault.Deferred? && !PR.Broken(plan, api) ==>
                var s' := Pass(s, spec, api);
                var restores := Restores(s, spec, plan.copying);
                && (forall d | d in spec.deployments :: d in s'.replicas
                      && s'.replicas[d] == if restores && spec.database.bundled && d in spec.clients then 0 else spec.deployments[d])
                && (forall d | d !in spec.deployments :: d in s'.replicas <==> d in s.replicas && d in api.unpruned)
                && (s'.scheduled <==> if spec.backups then !(restores && spec.database.bundled)
                                      else s.scheduled && !api.cronPruned && !api.cronRemoved)
  {
    hide CarryOut, D.PlanDatabase, R.InProgress, R.DumpOf;
    match D.PlanDatabase(spec.database, s.postgres, s.jobs, s.now, api.database)
    case Unknown =>
    case Decided(plan, jobs) =>
      if !api.fault.Deferred? && !PR.Broken(plan, api) { CarryOutStops(s.(jobs := jobs), spec, plan, api); }
  }

  lemma CarryOutStops(s: State, spec: Spec, plan: D.Plan, api: Api)
    requires !api.fault.Deferred? && !PR.Broken(plan, api)
    ensures var s' := CarryOut(s, spec, plan, api);
            var restores := Restores(s, spec, plan.copying);
            && (forall d | d in spec.deployments :: d in s'.replicas
                  && s'.replicas[d] == if restores && spec.database.bundled && d in spec.clients then 0 else spec.deployments[d])
            && (forall d | d !in spec.deployments :: d in s'.replicas <==> d in s.replicas && d in api.unpruned)
            && (s'.scheduled <==> if spec.backups then !(restores && spec.database.bundled)
                                  else s.scheduled && !api.cronPruned && !api.cronRemoved)
  {
    hide CarryOut, Finish, ApplyAll, ApplySome, Rendered, R.InProgress, R.DumpOf;
    var planned := PlanRestore(s, spec, plan);
    PlanIs(spec.database.bundled, spec.restoreRequest, s.status.restore, plan.copying, s.now);
    PR.SwitchedSame(s, plan);
    var switched := Switched(s, plan);
    var all := ApplyAll(switched, spec, plan.volume, planned.dump, api);
    AppliedIs(switched, spec, plan.volume, planned.dump, api);
    PR.GoesOn(s, spec, plan, api);
    FinishStops(all, spec, plan, planned, api);
    NowStays(s, plan);
  }

  lemma FinishStops(s: State, spec: Spec, plan: D.Plan, planned: R.Planned, api: Api)
    ensures var s' := Finish(s, spec, plan, planned, api);
            s'.replicas == s.replicas && (s'.scheduled <==> s.scheduled && (spec.backups || !api.cronRemoved))
  {
    hide StepRestore, JobsCopied, ConfigureRealm, Verify, Tally;
  }

  /**
   * A request that names no dump, or meets external databases, ends in Refused and nothing
   * else: in each pass that completes, with no restore Job made and none touched.
   */
  lemma BadRequestIsRefused(s: State, spec: Spec, api: Api)
    requires Asked(spec.restoreRequest, s.status.restore) && !(spec.database.bundled && R.DumpOf(spec.restoreRequest).Some?)
    requires Completes(s, spec, api)
    ensures var s' := Pass(s, spec, api);
            && s'.status.restore == Some(R.Status(spec.restoreRequest, R.Refused, None, s.now, Some(s.now)))
            && (forall n | n in s.jobs && s.jobs[n].purpose.RestoreJob? :: n in s'.jobs && s'.jobs[n] == s.jobs[n])
            && (forall n | n in s'.jobs && s'.jobs[n].purpose.RestoreJob? :: n in s.jobs)
  {
    hide CarryOut, D.PlanDatabase, R.InProgress, R.DumpOf;
    P.PlanTouches(spec.database, s.postgres, s.jobs, s.now, api.database);
    match D.PlanDatabase(spec.database, s.postgres, s.jobs, s.now, api.database)
    case Unknown =>
    case Decided(plan, jobs) => CarryOutRefuses(s.(jobs := jobs), spec, plan, api);
  }

  lemma CarryOutRefuses(s: State, spec: Spec, plan: D.Plan, api: Api)
    requires Asked(spec.restoreRequest, s.status.restore) && !(spec.database.bundled && R.DumpOf(spec.restoreRequest).Some?)
    requires !PR.Broken(plan, api) && !api.fault.Components? && !api.fault.StatusWrite?
    ensures var s' := CarryOut(s, spec, plan, api);
            && s'.status.restore == Some(R.Status(spec.restoreRequest, R.Refused, None, s.now, Some(s.now)))
            && (forall n | n in s.jobs && s.jobs[n].purpose.RestoreJob? :: n in s'.jobs && s'.jobs[n] == s.jobs[n])
            && (forall n | n in s'.jobs && s'.jobs[n].purpose.RestoreJob? :: n in s.jobs)
  {
    hide CarryOut, Finish, StepRestore, Switched, ApplySome, Rendered, R.InProgress, R.DumpOf, JobsCopied;
    var planned := PlanRestore(s, spec, plan);
    PlanIs(spec.database.bundled, spec.restoreRequest, s.status.restore, plan.copying, s.now);
    PR.SwitchedSame(s, plan);
    PR.ApplySame(Switched(s, plan), spec, plan.volume, planned.dump, api);
    var all := ApplyAll(Switched(s, plan), spec, plan.volume, planned.dump, api);
    PR.GoesOn(s, spec, plan, api);
    PR.FinishSums(all, spec, plan, planned, api);
    PR.StepIs(all, spec, plan, planned, api);
    PR.PlanDump(s, spec, plan);
    PR.CopyTouches(all, spec, plan, planned.dump, api);
    PR.RestTouches(all, spec, plan, planned, api);
  }
}
