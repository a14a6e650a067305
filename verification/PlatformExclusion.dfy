/**
 * Restores and copies: neither is begun beside the other while the migration is left as
 * it is, and what happens where it is not.
 */
module PlatformExclusion {
  import opened Basics
  import opened Jobs
  import opened Platform
  import P = PlatformDatabase
  import PR = PlatformRestore
  import D = Database
  import R = Restore

  // ---- restores and copies ----

  predicate InFlight(s: State) {
    R.InProgress(s.status.restore).Some?
  }

  predicate CopyOfRunning(s: State, j: Job) {
    P.OurCopy(j) && !j.deleting && s.postgres == D.On(j.purpose.source)
  }

  /**
   * With the migration on, a restore in flight has every copy of the running volume
   * failed; with it off, no copy is unfinished.
   */
  ghost predicate Apart(s: State, migrate: bool) {
    if migrate then InFlight(s) ==> forall n | n in s.jobs && CopyOfRunning(s, s.jobs[n]) :: s.jobs[n].outcome.Failed?
    else forall n | n in s.jobs && P.OurCopy(s.jobs[n]) && !s.jobs[n].deleting :: !s.jobs[n].outcome.Unfinished?
  }

  predicate Fixed(e: Event, claim: Volume, migrate: bool) {
    P.Steady(e, claim) && (e.Reconcile? ==> e.spec.database.migrate == migrate)
  }

  /** What a decision means for a restore: while it does not copy, no copy is in flight or waits to be switched to. */
  lemma PlanApart(s: State, spec: D.Spec, api: D.Api)
    requires P.Inv(s, spec.claim) && Apart(s, spec.migrate)
    ensures match D.PlanDatabase(spec, s.postgres, s.jobs, s.now, api)
            case Unknown => true
            case Decided(plan, jobs) =>
              && Apart(s.(jobs := jobs), spec.migrate)
              && (InFlight(s) ==> !plan.switching)
              && (!spec.migrate ==> !plan.start && !plan.switching)
              && (spec.bundled && spec.migrate && !plan.copying ==>
                    forall n | n in jobs && CopyOfRunning(s, jobs[n]) :: jobs[n].outcome.Failed?)
  {
    P.PlanTouches(spec, s.postgres, s.jobs, s.now, api);
    if s.postgres.On? && s.postgres.volume != spec.claim && spec.migrate {
      var copies := Copies(s.jobs, s.postgres.volume, spec.claim);
      assert forall n | n in s.jobs && CopyOfRunning(s, s.jobs[n]) :: n in copies;
      if copies != {} {
        var latest := Newest(s.jobs, copies);
        assert latest in copies && CopyOfRunning(s, s.jobs[latest]);
      }
    }
  }

  /** No pass makes a restore be in flight but by planning it. */
  lemma FinishInFlight(s: State, spec: Spec, plan: D.Plan, planned: R.Planned, api: Api)
    ensures InFlight(Finish(s, spec, plan, planned, api)) ==> R.InProgress(planned.restore).Some? || InFlight(s)
  {
    hide JobsCopied, ConfigureRealm, Verify;
  }

  lemma CarryOutInFlight(s: State, spec: Spec, plan: D.Plan, api: Api)
    ensures InFlight(CarryOut(s, spec, plan, api)) ==> PlanRestore(s, spec, plan).dump.Some?
  {
    hide CarryOut, Finish, ApplyAll, ApplySome, Switched, Rendered;
    var planned := PlanRestore(s, spec, plan);
    PR.PlanDump(s, spec, plan);
    assert InFlight(s) ==> planned.dump.Some?;
    if PR.Broken(plan, api) {
      PR.BreaksOff(s, spec, plan, api);
    } else {
      PR.SwitchedSame(s, plan);
      PR.ApplySame(Switched(s, plan), spec, plan.volume, planned.dump, api);
      PR.GoesOn(s, spec, plan, api);
      FinishInFlight(ApplyAll(Switched(s, plan), spec, plan.volume, planned.dump, api), spec, plan, planned, api);
    }
  }

  lemma CarryOutApart(s: State, spec: Spec, plan: D.Plan, api: Api)
    requires P.Inv(s, spec.database.claim) && P.SoundPlan(s, spec.database.claim, plan, s.jobs) && Apart(s, spec.database.migrate)
    requires InFlight(s) ==> !plan.switching
    requires !spec.database.migrate ==> !plan.start && !plan.switching
    requires spec.database.bundled && spec.database.migrate && !plan.copying ==>
               forall n | n in s.jobs && CopyOfRunning(s, s.jobs[n]) :: s.jobs[n].outcome.Failed?
    ensures Apart(CarryOut(s, spec, plan, api), spec.database.migrate)
    ensures InFlight(s) && s.postgres.On? ==> CarryOut(s, spec, plan, api).postgres == s.postgres
  {
    hide CarryOut, P.SwitchReady;
    var s' := CarryOut(s, spec, plan, api);
    P.CarryOutMoves(s, spec, plan, api);
    P.CarryOutCopies(s, spec, plan, api);
    CarryOutInFlight(s, spec, plan, api);
    if spec.database.migrate && InFlight(s') {
      assert (spec.database.bundled && !plan.copying) || InFlight(s) by { NotWhileCopying(s, spec, plan); }
      assert P.SamePostgres(s, s') || !s.postgres.On?;
    }
  }

  /** A restore begins only while nothing is being copied. */
  lemma NotWhileCopying(s: State, spec: Spec, plan: D.Plan)
    ensures PlanRestore(s, spec, plan).dump.Some? ==> (spec.database.bundled && !plan.copying) || InFlight(s)
  {
  }

  lemma PassApart(s: State, spec: Spec, api: Api)
    requires P.Inv(s, spec.database.claim) && Apart(s, spec.database.migrate)
    ensures Apart(Pass(s, spec, api), spec.database.migrate)
    ensures InFlight(s) && s.postgres.On? ==> Pass(s, spec, api).postgres == s.postgres
  {
    hide CarryOut, D.PlanDatabase;
    P.PlanIsSound(s, spec.database, api.database);
    P.PlanKeeps(s, spec.database, api.database);
    PlanApart(s, spec.database, api.database);
    match D.PlanDatabase(spec.database, s.postgres, s.jobs, s.now, api.database)
    case Unknown =>
    case Decided(plan, jobs) =>
      CarryOutApart(s.(jobs := jobs), spec, plan, api);
  }

  lemma EventApart(s: State, e: Event, claim: Volume, migrate: bool)
    requires P.Inv(s, claim) && Apart(s, migrate) && Fixed(e, claim, migrate)
    ensures Apart(Do(s, e), migrate)
    ensures InFlight(s) && s.postgres.On? ==> Do(s, e).postgres == s.postgres
  {
    hide Pass;
    match e
    case Reconcile(spec, api) => PassApart(s, spec, api);
    case _ =>
  }

  /**
   * With the migration left as it is, no restore in flight ever meets an unfinished copy.
   */
  lemma {:induction false} RestoresAndCopiesStayApart(s: State, events: seq<Event>, claim: Volume, migrate: bool)
    requires P.Inv(s, claim) && Apart(s, migrate)
    requires forall i | 0 <= i < |events| :: Fixed(events[i], claim, migrate)
    ensures var s' := Run(s, events);
            Apart(s', migrate) && P.Inv(s', claim)
            && !(InFlight(s') && exists n :: n in s'.jobs && P.OurCopy(s'.jobs[n]) && s'.jobs[n].outcome.Unfinished?)
    decreases |events|
  {
    hide Do;
    if events != [] {
      assert Fixed(events[0], claim, migrate);
      EventApart(s, events[0], claim, migrate);
      P.EventKeeps(s, events[0], claim);
      RestoresAndCopiesStayApart(Do(s, events[0]), events[1..], claim, migrate);
    }
  }

  /**
   * Nor, where passes write their status, no client comes or goes and no pass finds a
   * restore in flight with external databases, does an unfinished restore Job ever meet an
   * unfinished copy Job.
   */
  lemma RestoreJobsMeetNoCopyJobs(s: State, events: seq<Event>, claim: Volume, migrate: bool, clients: set<string>)
    requires P.Inv(s, claim) && Apart(s, migrate) && PR.Inv(s, clients)
    requires PR.AllStayBundled(s, events) && forall i | 0 <= i < |events| :: Fixed(events[i], claim, migrate) && PR.Steady(events[i], clients)
    ensures var jobs := Run(s, events).jobs;
            forall n, m | n in jobs && m in jobs && PR.Restoring(jobs[n]) && P.OurCopy(jobs[m]) :: !jobs[m].outcome.Unfinished?
  {
    hide Run, P.Inv, Apart, Fixed, PR.Steady, PR.AllStayBundled;
    RestoresAndCopiesStayApart(s, events, claim, migrate);
    PR.RunKeeps(s, events, clients);
    var s' := Run(s, events);
    forall n | n in s'.jobs && PR.Restoring(s'.jobs[n])
      ensures InFlight(s')
    {
      PR.FollowedInProgress(s'.jobs, n, s'.status.restore, s'.replicas, s'.pods, s'.scheduled, clients);
    }
  }

  /**
   * With the migration turned off while a copy runs, the copy is no longer seen: a pass
   * takes up a restore beside it if and only if a new request names a dump.
   */
  lemma RestoreMeetsCopyIffMigrationOff(s: State, spec: Spec, api: Api, n: Name)
    requires P.Inv(s, spec.database.claim) && !InFlight(s)
    requires n in s.jobs && P.OurCopy(s.jobs[n]) && s.jobs[n].outcome.Unfinished?
    ensures match D.PlanDatabase(spec.database, s.postgres, s.jobs, s.now, api.database)
            case Unknown => true
            case Decided(plan, jobs) =>
              n in jobs && jobs[n] == s.jobs[n]
              && (PlanRestore(s.(jobs := jobs), spec, plan).dump.Some? <==>
                    spec.database.bundled && !spec.database.migrate && R.DumpOf(spec.restoreRequest).Some?
                    && !(s.status.restore.Some? && s.status.restore.value.request == spec.restoreRequest))
  {
    var copies := Copies(s.jobs, s.postgres.volume, spec.database.claim);
    assert n in copies;
    assert Newest(s.jobs, copies) == n;
  }
}
