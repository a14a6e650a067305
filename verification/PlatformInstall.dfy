/**
 * From a new install on: what the platform promises in every run, all of it together.
 */
module PlatformInstall {
  import opened Basics
  import opened Jobs
  import opened Platform
  import P = PlatformDatabase
  import PR = PlatformRestore
  import PX = PlatformExclusion
  import PU = PlatformRuns
  import PV = PlatformVerification
  import VR = VerificationRuns
  import R = Restore

  /** No Postgres, no Job and no status yet; Deployments, pods and backups' schedules may be there already. */
  predicate NewInstall(s: State) {
    s.postgres.Missing? && s.jobs == map[] && s.commits == 0 && s.status == Status(None, None) && s.restoreJobs == 0
  }

  /** What stays as it is: where the database goes, whether it migrates, its clients, who signs people in. */
  datatype Settings = Settings(claim: Volume, migrate: bool, clients: set<string>, identity: bool)

  predicate Steady(e: Event, settings: Settings) {
    && PX.Fixed(e, settings.claim, settings.migrate) && PR.Steady(e, settings.clients) && PU.Steady(e, settings.identity)
  }

  ghost predicate Inv(s: State, settings: Settings) {
    && P.Inv(s, settings.claim) && PX.Apart(s, settings.migrate) && PR.Inv(s, settings.clients)
    && PU.Apart(s.jobs, s.status.verification, settings.identity) && VR.OneRun(s.jobs)
  }

  lemma NewInstallHolds(s: State, settings: Settings)
    requires NewInstall(s)
    ensures Inv(s, settings) && P.Accounts(s, settings.claim) && VR.Tidy(PV.View(s))
  {
  }

  /** Never two of these together: an unfinished copy, an unfinished restore, a realm run, a verification run; and never two of a kind. */
  ghost predicate OneAtATime(jobs: Table) {
    && (forall n, m | n in jobs && m in jobs && P.OurCopy(jobs[n]) && P.OurCopy(jobs[m])
                      && jobs[n].outcome.Unfinished? && jobs[m].outcome.Unfinished? :: n == m)
    && (forall n, m | n in jobs && m in jobs && PR.Restoring(jobs[n]) && PR.Restoring(jobs[m]) :: n == m)
    && (forall n, m | n in jobs && m in jobs && PU.RealmInFlight(jobs[n]) && PU.RealmInFlight(jobs[m]) :: n == m)
    && (forall n, m | n in jobs && m in jobs && PU.VerifyInFlight(jobs[n]) && PU.VerifyInFlight(jobs[m]) :: n == m)
    && (forall n, m | n in jobs && m in jobs && PR.Restoring(jobs[n]) && P.OurCopy(jobs[m]) :: !jobs[m].outcome.Unfinished?)
    && (forall n, m | n in jobs && m in jobs && PU.RealmInFlight(jobs[n]) :: !PU.VerifyInFlight(jobs[m]))
  }

  /**
   * In every run from a new install in which no pass finds a restore in flight with
   * external databases: one Job of a kind at a time, none beside another it
   * must not meet, no pod of a client beside the restore that stopped it, and no committed
   * write lost but those made while the copy switched to was being made.
   */
  lemma FromANewInstall(s: State, events: seq<Event>, settings: Settings)
    requires NewInstall(s) && PR.AllStayBundled(s, events) && forall i | 0 <= i < |events| :: Steady(events[i], settings)
    ensures var s' := Run(s, events);
            && Inv(s', settings) && OneAtATime(s'.jobs)
            && (forall n, d | n in s'.jobs && PR.Restoring(s'.jobs[n]) && d in s'.jobs[n].purpose.stopped && d in settings.clients ::
                  R.PodsOf(s'.pods, d) == 0)
            && (P.Undisturbed(s, events) ==> P.NothingElseLost(s'))
  {
    hide Run, P.Accounts, P.Undisturbed, P.NothingElseLost, P.CopyInv, P.Whole, PX.Apart, PR.Inv, PR.Steady, PR.AllStayBundled;
    NewInstallHolds(s, settings);
    assert forall i | 0 <= i < |events| :: Steady(events[i], settings);
    PX.RestoresAndCopiesStayApart(s, events, settings.claim, settings.migrate);
    PX.RestoreJobsMeetNoCopyJobs(s, events, settings.claim, settings.migrate, settings.clients);
    PR.RunKeeps(s, events, settings.clients);
    PR.RestoresRunAlone(s, events, settings.clients);
    PU.RealmAndVerificationStayApart(s, events, settings.identity);
    PU.OneVerificationAtATime(s, events);
    if P.Undisturbed(s, events) { P.OnlyWritesDuringTheCopyAreLost(s, events, settings.claim); }
    OneOfAKind(Run(s, events), settings);
  }

  lemma OneOfAKind(s: State, settings: Settings)
    requires Inv(s, settings)
    ensures forall n, m | n in s.jobs && m in s.jobs && P.OurCopy(s.jobs[n]) && P.OurCopy(s.jobs[m])
                          && s.jobs[n].outcome.Unfinished? && s.jobs[m].outcome.Unfinished? :: n == m
    ensures forall n, m | n in s.jobs && m in s.jobs && PU.RealmInFlight(s.jobs[n]) && PU.RealmInFlight(s.jobs[m]) :: n == m
    ensures forall n, m | n in s.jobs && m in s.jobs && PU.VerifyInFlight(s.jobs[n]) && PU.VerifyInFlight(s.jobs[m]) :: n == m
  {
    hide PX.Apart, PR.Inv, P.Whole;
    assert forall n | n in s.jobs && PU.RealmInFlight(s.jobs[n]) :: n in RealmRuns(s.jobs);
    assert forall n | n in s.jobs && PU.VerifyInFlight(s.jobs[n]) :: n in VerifyRuns(s.jobs);
  }
}
