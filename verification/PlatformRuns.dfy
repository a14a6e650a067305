/**
 * Realm runs and verification runs over every run of the platform: never both unfinished,
 * and neither begun beside a copy or a restore, nor in the pass a restore ends.
 */
module PlatformRuns {
  import opened Basics
  import opened Jobs
  import opened Platform
  import P = PlatformDatabase
  import PR = PlatformRestore
  import PX = PlatformExclusion
  import D = Database
  import R = Restore
  import K = RealmRun
  import V = Verification
  import VR = VerificationRuns

  predicate RealmInFlight(j: Job) {
    InFlight(j) && j.purpose.RealmJob?
  }

  predicate VerifyInFlight(j: Job) {
    InFlight(j) && j.purpose.VerifyJob?
  }

  /** One realm run is kept at the most, and none without a realm of the platform's own. */
  ghost predicate OneRealm(jobs: Table, identity: bool) {
    && (forall n, m | n in RealmRuns(jobs) && m in RealmRuns(jobs) :: n == m)
    && (!identity ==> RealmRuns(jobs) == {})
  }

  /** Status names the verification run in flight. */
  ghost predicate Named(jobs: Table, v: Option<V.Status>) {
    forall n | n in jobs && VerifyInFlight(jobs[n]) :: V.IsRunning(v) && v.value.job == Some(n)
  }

  ghost predicate NotBoth(jobs: Table) {
    forall n, m | n in jobs && m in jobs :: !(RealmInFlight(jobs[n]) && VerifyInFlight(jobs[m]))
  }

  ghost predicate Apart(jobs: Table, v: Option<V.Status>, identity: bool) {
    OneRealm(jobs, identity) && Named(jobs, v) && NotBoth(jobs)
  }

  /** The chart runs a client of the database, and Keycloak, where it is rendered, is one. */
  predicate Chart(spec: Spec) {
    && (exists d :: d in spec.deployments && d in spec.clients)
    && (KEYCLOAK in spec.deployments ==> KEYCLOAK in spec.clients)
  }

  /** Who signs people in is fixed, verification stays enabled, and no pass loses its status write: in either mode of the databases. */
  predicate Steady(e: Event, identity: bool) {
    e.Reconcile? ==> e.spec.verification && e.spec.realm.Some? == identity && !e.api.fault.StatusWrite?
  }

  // ---- the two steps ----

  /** A realm run begins only with Keycloak up, nothing holding it back and no verification in flight. */
  lemma RealmKeeps(hook: Option<string>, jobs: Table, keycloak: K.Keycloak, hold: bool, verifying: bool, now: Time, api: K.Api)
    requires OneRealm(jobs, hook.Some?)
    ensures var r := K.ConfigureRealm(hook, jobs, keycloak, hold, verifying, now, api);
            && OneRealm(r.jobs, hook.Some?)
            && (!r.soon ==> forall n | n in r.jobs :: !RealmInFlight(r.jobs[n]))
            && (forall n | n in r.jobs && n !in jobs :: r.soon && K.KeycloakAvailable(keycloak) && !hold && !verifying)
  {
    var runs := RealmRuns(jobs);
    forall n | n in jobs && RealmInFlight(jobs[n])
      ensures n in runs && Newest(jobs, runs) == n
    {
    }
    if hook.Some? && api.listed && K.Latest(hook.value, jobs, now).Run? {
      var left := Delete(jobs, runs * api.deletable);
      assert RealmRuns(left) <= runs;
      var r := K.ConfigureRealm(hook, jobs, keycloak, hold, verifying, now, api);
      assert forall n | n in RealmRuns(r.jobs) :: n in runs || n == api.name;
      assert api.name in r.jobs && api.name !in jobs ==> runs <= api.deletable;
    }
  }

  /** What a realm run has done is not done again: after one of the same realm only where it failed, and not before its wait is over. */
  lemma RealmNotRepeated(hook: string, jobs: Table, keycloak: K.Keycloak, hold: bool, verifying: bool, now: Time, api: K.Api, n: Name, m: Name)
    requires OneRealm(jobs, true) && m in RealmRuns(jobs) && jobs[m].purpose.realmFingerprint == hook
    requires n in K.ConfigureRealm(Some(hook), jobs, keycloak, hold, verifying, now, api).jobs && n !in jobs
    ensures jobs[m].outcome.Failed? && jobs[m].outcome.at + K.RETRY_AFTER <= now
    ensures K.ConfigureRealm(Some(hook), jobs, keycloak, hold, verifying, now, api).jobs[m].deleting
  {
    assert Newest(jobs, RealmRuns(jobs)) == m;
    assert RealmRuns(jobs) == {m};
  }

  /** A restore that succeeds leaves no realm run, so that the next pass that can brings the restored realm in step. */
  lemma RestoredRealmRunsAgain(rs: R.Status, jobs: Table, fingerprint: string, now: Time, api: R.Api)
    requires api.realmListed && RealmRuns(jobs) <= api.deletable
    ensures K.Latest(fingerprint, R.End(rs, R.Succeeded, jobs, now, api).jobs, now).Run?
  {
    assert RealmRuns(R.End(rs, R.Succeeded, jobs, now, api).jobs) == {};
  }

  /** Where status names the run in flight it goes on doing so, and a run begins only when ready. */
  lemma VerifyKeeps(prev: Option<V.Status>, jobs: Table, ask: V.Ask, ready: bool, now: Time, api: V.Api)
    requires Named(jobs, prev)
    ensures var r := V.Step(true, prev, jobs, ask, ready, now, api);
            && Named(r.jobs, r.status)
            && (forall n | n in r.jobs && n !in jobs :: ready)
  {
    hide V.Adopt;
    if V.IsRunning(prev) {
      assert V.Step(true, prev, jobs, ask, ready, now, api).jobs == jobs;
    } else {
      assert Jobs.Running(jobs, VerifyRuns(jobs)) == {};
    }
  }

  // ---- a pass ----

  /** Jobs of other kinds begin, and realm runs are deleted. */
  lemma OthersKeep(jobs: Table, jobs': Table, v: Option<V.Status>, identity: bool, made: set<Kind>, marked: set<Kind>)
    requires Apart(jobs, v, identity) && Touches(jobs, jobs', made, marked)
    requires made !! {RealmKind, VerifyKind} && VerifyKind !in marked
    ensures Apart(jobs', v, identity)
  {
    assert RealmRuns(jobs') <= RealmRuns(jobs);
  }

  lemma SteppedApart(s: State, spec: Spec, plan: D.Plan, planned: R.Planned, api: Api, identity: bool)
    requires Apart(s.jobs, s.status.verification, identity)
    ensures var jobs := StepRestore(s, spec, plan, planned, api).jobs;
            Apart(jobs, s.status.verification, identity)
            && forall n | n in jobs && n !in s.jobs :: !jobs[n].purpose.RealmJob? && !jobs[n].purpose.VerifyJob?
  {
    hide JobsCopied, StepRestore, R.StepRestore, Rendered, Apart;
    var copied := JobsCopied(s, spec, plan, planned.dump, api);
    PR.CopyTouches(s, spec, plan, planned.dump, api);
    PR.StepIs(s, spec, plan, planned, api);
    P.StepRestoreTouches(planned.restore, copied, s.pods, Rendered(spec, planned.dump), StillScheduled(s, spec, api), s.now, api.restore);
    OthersKeep(s.jobs, copied, s.status.verification, identity, {CopyKind}, {CopyKind});
    OthersKeep(copied, StepRestore(s, spec, plan, planned, api).jobs, s.status.verification, identity,
               {RestoreKind}, {RestoreKind, RealmKind});
  }

  /** Under a dump neither Keycloak nor the platform is up. */
  lemma DumpStopsBoth(s: State, spec: Spec, dump: Option<string>, api: Api)
    requires spec.database.bundled && Chart(spec) && dump.Some?
    requires forall d | d in spec.deployments :: d in s.replicas && s.replicas[d] == Rendered(spec, dump)[d]
    ensures !K.KeycloakAvailable(KeycloakSeen(s.replicas, Rendered(spec, dump), api))
    ensures !AllReady(s.replicas, Rendered(spec, dump), api)
  {
    var d :| d in spec.deployments && d in spec.clients;
    assert d in Rendered(spec, dump) && s.replicas[d] == 0;
  }

  lemma FinishApart(s: State, spec: Spec, plan: D.Plan, planned: R.Planned, api: Api)
    requires Apart(s.jobs, s.status.verification, spec.realm.Some?) && spec.verification && !api.fault.StatusWrite?
    requires forall d | d in spec.deployments :: d in s.replicas && s.replicas[d] == Rendered(spec, planned.dump)[d]
    ensures var s' := Finish(s, spec, plan, planned, api);
            && Apart(s'.jobs, s'.status.verification, spec.realm.Some?)
            && (spec.database.bundled && Chart(spec) ==>
                 forall n | n in s'.jobs && n !in s.jobs && (s'.jobs[n].purpose.RealmJob? || s'.jobs[n].purpose.VerifyJob?) ::
                   planned.dump.None? && !plan.copying && s'.status.restore == StepRestore(s, spec, plan, planned, api).restore)
  {
    hide StepRestore, JobsCopied, Rendered, AllReady, KeycloakSeen, Chart, Tally;
    var stepped := StepRestore(s, spec, plan, planned, api);
    var render := Rendered(spec, planned.dump);
    SteppedApart(s, spec, plan, planned, api, spec.realm.Some?);
    if planned.dump.Some? && spec.database.bundled && Chart(spec) { DumpStopsBoth(s, spec, planned.dump, api); }
    if !api.fault.Components? {
      var keycloak := KeycloakSeen(s.replicas, render, api);
      var hold, verifying := plan.copying || stepped.inFlight, V.IsRunning(s.status.verification);
      var configured := ConfigureRealm(s, spec, plan, planned, stepped, api);
      var ready := AllReady(s.replicas, render, api) && !configured.soon && !plan.copying && !stepped.inFlight;
      RunsApart(stepped.jobs, s.status.verification, spec.realm, keycloak, hold, Asked(spec), ready, s.now, api.realm, api.verification);
    }
  }

  /** The realm's step, then the verification's. */
  lemma RunsApart(jobs: Table, prev: Option<V.Status>, hook: Option<string>, keycloak: K.Keycloak, hold: bool,
                  ask: V.Ask, ready: bool, now: Time, realm: K.Api, verification: V.Api)
    requires Apart(jobs, prev, hook.Some?) && OneRealm(jobs, hook.Some?)
    requires ready ==> !K.ConfigureRealm(hook, jobs, keycloak, hold, V.IsRunning(prev), now, realm).soon
    ensures var configured := K.ConfigureRealm(hook, jobs, keycloak, hold, V.IsRunning(prev), now, realm);
            var verified := V.Step(true, prev, configured.jobs, ask, ready, now, verification);
            && Apart(verified.jobs, verified.status, hook.Some?)
            && (forall n | n in verified.jobs && n !in jobs :: ready || (K.KeycloakAvailable(keycloak) && !hold))
  {
    hide K.ConfigureRealm, V.Step, V.IsRunning, Apart, RealmInFlight;
    var configured := K.ConfigureRealm(hook, jobs, keycloak, hold, V.IsRunning(prev), now, realm);
    RealmApart(jobs, prev, hook, keycloak, hold, now, realm);
    RealmKeepsInFlight(hook, jobs, keycloak, hold, V.IsRunning(prev), now, realm);
    VerifyApart(configured.jobs, prev, hook.Some?, ask, ready, now, verification);
  }

  lemma RealmKeepsInFlight(hook: Option<string>, jobs: Table, keycloak: K.Keycloak, hold: bool, verifying: bool, now: Time, api: K.Api)
    requires OneRealm(jobs, hook.Some?)
    ensures var r := K.ConfigureRealm(hook, jobs, keycloak, hold, verifying, now, api);
            && (!r.soon ==> forall n | n in r.jobs :: !RealmInFlight(r.jobs[n]))
            && (forall n | n in r.jobs && n !in jobs :: K.KeycloakAvailable(keycloak) && !hold)
  {
    hide K.ConfigureRealm, OneRealm;
    RealmKeeps(hook, jobs, keycloak, hold, verifying, now, api);
  }

  lemma RealmApart(jobs: Table, prev: Option<V.Status>, hook: Option<string>, keycloak: K.Keycloak, hold: bool, now: Time, api: K.Api)
    requires Apart(jobs, prev, hook.Some?)
    ensures Apart(K.ConfigureRealm(hook, jobs, keycloak, hold, V.IsRunning(prev), now, api).jobs, prev, hook.Some?)
  {
    hide K.ConfigureRealm, V.IsRunning, OneRealm;
    RealmKeeps(hook, jobs, keycloak, hold, V.IsRunning(prev), now, api);
    P.ConfigureRealmTouches(hook, jobs, keycloak, hold, V.IsRunning(prev), now, api);
  }

  lemma VerifyApart(jobs: Table, prev: Option<V.Status>, identity: bool, ask: V.Ask, ready: bool, now: Time, api: V.Api)
    requires Apart(jobs, prev, identity) && (ready ==> forall n | n in jobs :: !RealmInFlight(jobs[n]))
    ensures var r := V.Step(true, prev, jobs, ask, ready, now, api);
            Apart(r.jobs, r.status, identity) && forall n | n in r.jobs && n !in jobs :: ready
  {
    hide V.Step, V.IsRunning;
    VerifyKeeps(prev, jobs, ask, ready, now, api);
    P.VerifyTouches(true, prev, jobs, ask, ready, now, api);
    assert RealmRuns(V.Step(true, prev, jobs, ask, ready, now, api).jobs) <= RealmRuns(jobs);
  }

  /** A pass once it has decided: what it begins of the two begins alone. */
  lemma CarryOutApart(s: State, spec: Spec, plan: D.Plan, api: Api)
    requires Apart(s.jobs, s.status.verification, spec.realm.Some?) && spec.verification && !api.fault.StatusWrite?
    ensures var s' := CarryOut(s, spec, plan, api);
            && Apart(s'.jobs, s'.status.verification, spec.realm.Some?)
            && (spec.database.bundled && Chart(spec) ==>
                 forall n | n in s'.jobs && n !in s.jobs && (s'.jobs[n].purpose.RealmJob? || s'.jobs[n].purpose.VerifyJob?) ::
                   !plan.copying && !PX.InFlight(s) && !PX.InFlight(s'))
  {
    hide CarryOut, Finish, PlanRestore, ApplyAll, ApplySome, Switched, Rendered, Apart, Chart, StepRestore;
    var planned := PlanRestore(s, spec, plan);
    PR.SwitchedSame(s, plan);
    PR.ApplySame(Switched(s, plan), spec, plan.volume, planned.dump, api);
    PR.PlanDump(s, spec, plan);
    if PR.Broken(plan, api) {
      PR.BreaksOff(s, spec, plan, api);
    } else {
      var all := ApplyAll(Switched(s, plan), spec, plan.volume, planned.dump, api);
      PR.GoesOn(s, spec, plan, api);
      FinishApart(all, spec, plan, planned, api);
      if planned.dump.None? {
        IdleRestore(s, all, spec, plan, api);
      }
    }
  }

  /** Where no dump is rendered no restore was in flight, and the step begins none. */
  lemma IdleRestore(s: State, all: State, spec: Spec, plan: D.Plan, api: Api)
    requires PlanRestore(s, spec, plan).dump.None?
    ensures !PX.InFlight(s)
    ensures R.InProgress(StepRestore(all, spec, plan, PlanRestore(s, spec, plan), api).restore).None?
  {
    hide JobsCopied, Rendered;
    PR.PlanDump(s, spec, plan);
  }

  lemma PassRunsApart(s: State, spec: Spec, api: Api)
    requires Apart(s.jobs, s.status.verification, spec.realm.Some?) && Steady(Reconcile(spec, api), spec.realm.Some?)
    ensures Apart(Pass(s, spec, api).jobs, Pass(s, spec, api).status.verification, spec.realm.Some?)
  {
    hide CarryOut, D.PlanDatabase, Apart;
    P.PlanTouches(spec.database, s.postgres, s.jobs, s.now, api.database);
    match D.PlanDatabase(spec.database, s.postgres, s.jobs, s.now, api.database)
    case Unknown =>
    case Decided(plan, jobs) =>
      OthersKeep(s.jobs, jobs, s.status.verification, spec.realm.Some?, {}, {CopyKind});
      CarryOutApart(s.(jobs := jobs), spec, plan, api);
  }

  /** Runs of either kind begin beside no copy and no restore, nor in the pass a restore ends. */
  lemma RunsBeginAlone(s: State, spec: Spec, api: Api, n: Name)
    requires Apart(s.jobs, s.status.verification, spec.realm.Some?) && Steady(Reconcile(spec, api), spec.realm.Some?)
    requires spec.database.bundled && Chart(spec) && P.Inv(s, spec.database.claim) && PX.Apart(s, spec.database.migrate)
    requires n in Pass(s, spec, api).jobs && n !in s.jobs
    requires Pass(s, spec, api).jobs[n].purpose.RealmJob? || Pass(s, spec, api).jobs[n].purpose.VerifyJob?
    ensures !PX.InFlight(s) && !PX.InFlight(Pass(s, spec, api))
    ensures forall m | m in Pass(s, spec, api).jobs && P.OurCopy(Pass(s, spec, api).jobs[m]) ::
              !Pass(s, spec, api).jobs[m].outcome.Unfinished?
  {
    hide CarryOut, D.PlanDatabase, Apart, P.SwitchReady;
    P.PlanIsSound(s, spec.database, api.database);
    P.PlanKeeps(s, spec.database, api.database);
    P.PlanTouches(spec.database, s.postgres, s.jobs, s.now, api.database);
    PX.PlanApart(s, spec.database, api.database);
    match D.PlanDatabase(spec.database, s.postgres, s.jobs, s.now, api.database)
    case Unknown =>
    case Decided(plan, jobs) =>
      OthersKeep(s.jobs, jobs, s.status.verification, spec.realm.Some?, {}, {CopyKind});
      CarryOutApart(s.(jobs := jobs), spec, plan, api);
      P.CarryOutCopies(s.(jobs := jobs), spec, plan, api);
      P.CarryOutKeeps(s.(jobs := jobs), spec, plan, api);
      P.CarryOutMoves(s.(jobs := jobs), spec, plan, api);
  }

  // ---- every run ----

  lemma EventRunsApart(s: State, e: Event, identity: bool)
    requires Apart(s.jobs, s.status.verification, identity) && Steady(e, identity)
    ensures Apart(Do(s, e).jobs, Do(s, e).status.verification, identity)
  {
    hide Pass, JobEnds, Chart, OneRealm, Named, NotBoth;
    match e
    case Reconcile(spec, api) => PassRunsApart(s, spec, api);
    case Ends(name, success, data) =>
      if name in s.jobs && s.jobs[name].outcome.Unfinished? { EndApart(s, name, success, data, identity); }
    case _ => BesideApart(s, e, identity);
  }

  lemma BesideApart(s: State, e: Event, identity: bool)
    requires Apart(s.jobs, s.status.verification, identity) && !e.Reconcile? && !e.Ends?
    ensures Apart(Do(s, e).jobs, Do(s, e).status.verification, identity)
  {
    hide Pass, JobEnds;
    assert RealmRuns(Do(s, e).jobs) <= RealmRuns(s.jobs);
  }

  lemma EndApart(s: State, name: Name, success: bool, data: set<nat>, identity: bool)
    requires Apart(s.jobs, s.status.verification, identity) && name in s.jobs && s.jobs[name].outcome.Unfinished?
    ensures Apart(JobEnds(s, name, success, data).jobs, JobEnds(s, name, success, data).status.verification, identity)
  {
    assert RealmRuns(JobEnds(s, name, success, data).jobs) <= RealmRuns(s.jobs);
  }

  /** In every run: never a realm run and a verification run unfinished together. */
  lemma {:induction false} RealmAndVerificationStayApart(s: State, events: seq<Event>, identity: bool)
    requires Apart(s.jobs, s.status.verification, identity)
    requires forall i | 0 <= i < |events| :: Steady(events[i], identity)
    ensures var s' := Run(s, events);
            Apart(s'.jobs, s'.status.verification, identity) && NotBoth(s'.jobs)
    decreases |events|
  {
    hide Do, NotBoth, OneRealm, Named;
    if events != [] {
      assert Steady(events[0], identity);
      EventRunsApart(s, events[0], identity);
      RealmAndVerificationStayApart(Do(s, events[0]), events[1..], identity);
    }
  }

  // ---- one verification run, whatever is lost ----

  lemma OthersKeepOneRun(jobs: Table, jobs': Table, made: set<Kind>, marked: set<Kind>)
    requires VR.OneRun(jobs) && Touches(jobs, jobs', made, marked) && VerifyKind !in made && VerifyKind !in marked
    ensures VR.OneRun(jobs')
  {
    assert VerifyRuns(jobs') <= VerifyRuns(jobs);
  }

  lemma FinishKeepsOneRun(s: State, spec: Spec, plan: D.Plan, planned: R.Planned, api: Api)
    requires VR.OneRun(s.jobs) && spec.verification
    ensures VR.OneRun(Finish(s, spec, plan, planned, api).jobs)
  {
    hide JobsCopied, StepRestore, R.StepRestore, K.ConfigureRealm, V.Step, Rendered, AllReady, KeycloakSeen, Tally, VR.OneRun;
    var copied := JobsCopied(s, spec, plan, planned.dump, api);
    var render := Rendered(spec, planned.dump);
    PR.CopyTouches(s, spec, plan, planned.dump, api);
    PR.StepIs(s, spec, plan, planned, api);
    var stepped := StepRestore(s, spec, plan, planned, api);
    P.StepRestoreTouches(planned.restore, copied, s.pods, render, StillScheduled(s, spec, api), s.now, api.restore);
    OthersKeepOneRun(s.jobs, copied, {CopyKind}, {CopyKind});
    OthersKeepOneRun(copied, stepped.jobs, {RestoreKind}, {RestoreKind, RealmKind});
    if !api.fault.Components? {
      var keycloak, hold := KeycloakSeen(s.replicas, render, api), plan.copying || stepped.inFlight;
      var configured := ConfigureRealm(s, spec, plan, planned, stepped, api);
      P.ConfigureRealmTouches(spec.realm, stepped.jobs, keycloak, hold, V.IsRunning(s.status.verification), s.now, api.realm);
      OthersKeepOneRun(stepped.jobs, configured.jobs, {RealmKind}, {RealmKind});
      var ready := AllReady(s.replicas, render, api) && !configured.soon && !plan.copying && !stepped.inFlight;
      VR.StepKeepsOneRun(s.status.verification, configured.jobs, Asked(spec), ready, s.now, api.verification);
    }
  }

  lemma PassKeepsOneRun(s: State, spec: Spec, api: Api)
    requires VR.OneRun(s.jobs) && spec.verification
    ensures VR.OneRun(Pass(s, spec, api).jobs)
  {
    hide D.PlanDatabase, PlanRestore, Switched, Rendered, Finish, VR.OneRun;
    P.PlanTouches(spec.database, s.postgres, s.jobs, s.now, api.database);
    match D.PlanDatabase(spec.database, s.postgres, s.jobs, s.now, api.database)
    case Unknown =>
    case Decided(plan, jobs) =>
      OthersKeepOneRun(s.jobs, jobs, {}, {CopyKind});
      var s0 := s.(jobs := jobs);
      var planned := PlanRestore(s0, spec, plan);
      PR.SwitchedSame(s0, plan);
      PR.ApplySame(Switched(s0, plan), spec, plan.volume, planned.dump, api);
      FinishKeepsOneRun(ApplyAll(Switched(s0, plan), spec, plan.volume, planned.dump, api), spec, plan, planned, api);
  }

  lemma EventKeepsOneRun(s: State, e: Event)
    requires VR.OneRun(s.jobs) && (e.Reconcile? ==> e.spec.verification)
    ensures VR.OneRun(Do(s, e).jobs)
  {
    hide Pass;
    if e.Reconcile? {
      PassKeepsOneRun(s, e.spec, e.api);
    } else {
      assert VerifyRuns(Do(s, e).jobs) <= VerifyRuns(s.jobs);
    }
  }

  /**
   * One verification run at the most is kept, and none is cut short, wherever passes break
   * off and whatever status writes are lost, while verification stays enabled.
   */
  lemma {:induction false} OneVerificationAtATime(s: State, events: seq<Event>)
    requires VR.OneRun(s.jobs)
    requires forall i | 0 <= i < |events| :: events[i].Reconcile? ==> events[i].spec.verification
    ensures VR.OneRun(Run(s, events).jobs)
    decreases |events|
  {
    hide Do, VR.OneRun;
    if events != [] {
      EventKeepsOneRun(s, events[0]);
      OneVerificationAtATime(Do(s, events[0]), events[1..]);
    }
  }
}
