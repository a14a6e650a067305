/**
 * What the status write of the pass that begins a verification run decides: lost, it
 * leaves a run that status does not name, and a realm run may begin beside it.
 */
module LostRuns {
  import opened Basics
  import opened Jobs
  import opened Platform
  import P = PlatformDatabase
  import PR = PlatformRestore
  import PU = PlatformRuns
  import D = Database
  import R = Restore
  import K = RealmRun
  import V = Verification
  import L = LostRestores
  import PM = PlatformRealm
  import PV = PlatformVerification

  // ---- a run that status does not name ----

  /** Verification run n is in flight, and status says that none is. */
  predicate Unnamed(s: State, n: Name) {
    n in s.jobs && PU.VerifyInFlight(s.jobs[n]) && !V.IsRunning(s.status.verification)
  }

  lemma UnnamedIsAdopted(enabled: bool, prev: Option<V.Status>, jobs: Table, ask: V.Ask, ready: bool, now: Time, api: V.Api, n: Name)
    requires n in jobs && PU.VerifyInFlight(jobs[n]) && !V.IsRunning(prev)
    ensures V.Step(enabled, prev, jobs, ask, ready, now, api).jobs == jobs
  {
    assert n in Jobs.Running(jobs, VerifyRuns(jobs));
  }

  /** A pass leaves such a run as it is, and makes no run but of the realm. */
  lemma UnnamedGoesOn(s: State, spec: Spec, api: Api, n: Name)
    requires Unnamed(s, n)
    ensures var jobs' := Pass(s, spec, api).jobs;
            n in jobs' && jobs'[n] == s.jobs[n] && Touches(s.jobs, jobs', PV.OTHERS, PV.OTHERS)
  {
    hide Pass, V.Step, PV.Reached, V.IsRunning;
    PV.PassIsAStep(s, spec, api);
    match PV.Reached(s, spec, api)
    case None =>
    case Some((jobs, ready)) =>
      UnnamedIsAdopted(spec.verification, s.status.verification, jobs, Asked(spec), ready, s.now, api.verification, n);
  }

  /**
   * Beside a verification run that status does not name, a pass begins a realm run if and
   * only if it gets to the realm's step, neither a copy nor a restore is in flight then,
   * Keycloak is up and the run can start; the verification run goes on.
   */
  lemma UnnamedMeetsRealmIff(s: State, spec: Spec, api: Api, n: Name)
    requires Unnamed(s, n) && PU.NotBoth(s.jobs)
    ensures var jobs' := Pass(s, spec, api).jobs;
            && n in jobs' && jobs'[n] == s.jobs[n]
            && (!PU.NotBoth(jobs') <==> PM.RealmBegins(s, spec, api))
  {
    hide Pass, PM.RealmBegins, V.IsRunning;
    UnnamedGoesOn(s, spec, api, n);
    PM.RealmBeginsIff(s, spec, api);
    var jobs' := Pass(s, spec, api).jobs;
    if m: Name :| PM.NewRealmRun(s.jobs, jobs', m) {
      assert PU.RealmInFlight(jobs'[m]) && PU.VerifyInFlight(jobs'[n]);
    }
    if !PU.NotBoth(jobs') {
      var m, v :| m in jobs' && v in jobs' && PU.RealmInFlight(jobs'[m]) && PU.VerifyInFlight(jobs'[v]);
      assert PM.NewRealmRun(s.jobs, jobs', m);
    }
  }

  // ---- the write that decides ----

  /** A run begins only where status named none in flight. */
  lemma BeginsUnnamed(prev: Option<V.Status>, jobs: Table, ask: V.Ask, ready: bool, now: Time, api: V.Api, n: Name)
    requires n in V.Step(true, prev, jobs, ask, ready, now, api).jobs && n !in jobs
    ensures !V.IsRunning(prev)
  {
    hide V.Collect;
  }

  lemma FinishBeginsUnnamed(s: State, spec: Spec, plan: D.Plan, planned: R.Planned, api: Api, n: Name)
    requires spec.verification && n in Finish(s, spec, plan, planned, api).jobs && n !in s.jobs
    requires Finish(s, spec, plan, planned, api).jobs[n].purpose.VerifyJob?
    ensures PU.VerifyInFlight(Finish(s, spec, plan, planned, api).jobs[n]) && !V.IsRunning(s.status.verification)
  {
    hide Finish, PV.Handed, V.Step, V.IsRunning, Asked;
    if api.fault.Components? {
      PV.FinishStopsShort(s, spec, plan, planned, api);
    } else {
      var (jobs, ready) := PV.Handed(s, spec, plan, planned, api);
      PV.FinishHands(s, spec, plan, planned, api);
      P.VerifyTouches(true, s.status.verification, jobs, Asked(spec), ready, s.now, api.verification);
      BeginsUnnamed(s.status.verification, jobs, Asked(spec), ready, s.now, api.verification, n);
    }
  }

  function WithItsWrite(api: Api): Api {
    api.(fault := NoFault)
  }

  /** The status write comes last: it decides nothing else about its own pass. */
  lemma WriteComesLast(s: State, spec: Spec, api: Api)
    requires api.fault.StatusWrite?
    ensures Pass(s, spec, api).jobs == Pass(s, spec, WithItsWrite(api)).jobs
  {
    hide Finish, ApplyAll, Switched, PlanRestore, D.PlanDatabase;
    match D.PlanDatabase(spec.database, s.postgres, s.jobs, s.now, api.database)
    case Unknown =>
    case Decided(plan, jobs) =>
      var s0 := s.(jobs := jobs);
      var planned := PlanRestore(s0, spec, plan);
      SameApply(Switched(s0, plan), spec, plan.volume, planned.dump, api);
      FinishWriteLast(ApplyAll(Switched(s0, plan), spec, plan.volume, planned.dump, api), spec, plan, planned, api);
  }

  lemma SameApply(s: State, spec: Spec, volume: Option<Volume>, dump: Option<string>, api: Api)
    ensures ApplyAll(s, spec, volume, dump, WithItsWrite(api)) == ApplyAll(s, spec, volume, dump, api)
  {
  }

  lemma FinishWriteLast(s: State, spec: Spec, plan: D.Plan, planned: R.Planned, api: Api)
    requires api.fault.StatusWrite?
    ensures Finish(s, spec, plan, planned, api).jobs == Finish(s, spec, plan, planned, WithItsWrite(api)).jobs
  {
    hide D.StartCopy, R.StepRestore, K.ConfigureRealm, V.Step, Rendered, AllReady, KeycloakSeen, V.IsRunning, Tally, Served;
    var api' := WithItsWrite(api);
    SameReady(s.replicas, Rendered(spec, planned.dump), api);
    var stepped := StepRestore(s, spec, plan, planned, api);
    assert stepped == StepRestore(s, spec, plan, planned, api');
    var configured := ConfigureRealm(s, spec, plan, planned, stepped, api);
    assert configured == ConfigureRealm(s, spec, plan, planned, stepped, api');
    assert Verify(s, spec, plan, planned, stepped, configured, api) == Verify(s, spec, plan, planned, stepped, configured, api');
  }

  lemma SameReady(replicas: map<string, nat>, render: map<string, nat>, api: Api)
    ensures AllReady(replicas, render, WithItsWrite(api)) == AllReady(replicas, render, api)
    ensures KeycloakSeen(replicas, render, WithItsWrite(api)) == KeycloakSeen(replicas, render, api)
  {
  }

  /**
   * The verification run a pass begins is named by status if and only if the pass writes
   * its status; either way it begins beside no realm run.
   */
  lemma StatusWriteNamesTheRun(s: State, spec: Spec, api: Api, n: Name)
    requires PU.Apart(s.jobs, s.status.verification, spec.realm.Some?)
    requires spec.verification
    requires n in Pass(s, spec, api).jobs && n !in s.jobs && Pass(s, spec, api).jobs[n].purpose.VerifyJob?
    ensures var s' := Pass(s, spec, api);
            && PU.VerifyInFlight(s'.jobs[n]) && PU.NotBoth(s'.jobs)
            && (PU.Apart(s'.jobs, s'.status.verification, spec.realm.Some?) <==> !api.fault.StatusWrite?)
            && (Unnamed(s', n) <==> api.fault.StatusWrite?)
  {
    hide Pass, PU.OneRealm, PU.NotBoth, V.IsRunning;
    var s' := Pass(s, spec, api);
    PassBeginsUnnamed(s, spec, api, n);
    if api.fault.StatusWrite? {
      WriteComesLast(s, spec, api);
      PU.PassRunsApart(s, spec, WithItsWrite(api));
      assert !PU.Named(s'.jobs, s'.status.verification);
    } else {
      PU.PassRunsApart(s, spec, api);
      assert PU.Named(s'.jobs, s'.status.verification);
    }
  }

  lemma PassBeginsUnnamed(s: State, spec: Spec, api: Api, n: Name)
    requires spec.verification
    requires n in Pass(s, spec, api).jobs && n !in s.jobs && Pass(s, spec, api).jobs[n].purpose.VerifyJob?
    ensures var s' := Pass(s, spec, api);
            && PU.VerifyInFlight(s'.jobs[n]) && !V.IsRunning(s.status.verification)
            && (api.fault.StatusWrite? ==> s'.status == s.status)
  {
    hide D.PlanDatabase, PlanRestore, Switched, Rendered, Finish, CarryOut, ApplyAll, ApplySome, V.IsRunning;
    P.PlanTouches(spec.database, s.postgres, s.jobs, s.now, api.database);
    match D.PlanDatabase(spec.database, s.postgres, s.jobs, s.now, api.database)
    case Unknown =>
    case Decided(plan, jobs) =>
      var s0 := s.(jobs := jobs);
      var planned := PlanRestore(s0, spec, plan);
      PR.SwitchedSame(s0, plan);
      PR.ApplySame(Switched(s0, plan), spec, plan.volume, planned.dump, api);
      if PR.Broken(plan, api) {
        PR.BreaksOff(s0, spec, plan, api);
      } else {
        var all := ApplyAll(Switched(s0, plan), spec, plan.volume, planned.dump, api);
        PR.GoesOn(s0, spec, plan, api);
        FinishBeginsUnnamed(all, spec, plan, planned, api, n);
        if api.fault.StatusWrite? { L.FinishStatusLost(all, spec, plan, planned, api); }
      }
  }

  /**
   * One more pass after the one that begins verification run n, the identity being the
   * platform's own or another's as before: a realm run comes to stand beside a verification
   * run if and only if the first pass lost its status write and the second gets to begin one.
   */
  lemma RealmMeetsVerificationIff(s: State, spec: Spec, api: Api, n: Name, spec': Spec, api': Api)
    requires PU.Apart(s.jobs, s.status.verification, spec.realm.Some?)
    requires spec.verification
    requires n in Pass(s, spec, api).jobs && n !in s.jobs && Pass(s, spec, api).jobs[n].purpose.VerifyJob?
    requires spec'.verification && spec'.realm.Some? == spec.realm.Some?
    ensures var s1 := Pass(s, spec, api);
            PU.NotBoth(s1.jobs) &&
            (!PU.NotBoth(Pass(s1, spec', api').jobs) <==> api.fault.StatusWrite? && PM.RealmBegins(s1, spec', api'))
  {
    hide Pass, PU.OneRealm, PU.Named, PU.NotBoth, PM.RealmBegins;
    var s1 := Pass(s, spec, api);
    StatusWriteNamesTheRun(s, spec, api, n);
    if api.fault.StatusWrite? {
      UnnamedMeetsRealmIff(s1, spec', api', n);
    } else if api'.fault.StatusWrite? {
      WriteComesLast(s1, spec', api');
      PU.PassRunsApart(s1, spec', WithItsWrite(api'));
    } else {
      PU.PassRunsApart(s1, spec', api');
    }
    assert PU.Apart(s1.jobs, s1.status.verification, spec.realm.Some?) <==> !api.fault.StatusWrite?;
  }

  // ---- inputs on which it comes about ----

  /** Realm run r has brought the rendered realm in step, and nothing has been verified yet. */
  ghost predicate InStep(s: State, r: Name, fingerprint: string) {
    && RealmRuns(s.jobs) == {r} && s.jobs[r].outcome.Complete? && s.jobs[r].purpose.realmFingerprint == fingerprint
    && AllVerifyRuns(s.jobs) == {} && s.status.verification.None?
  }

  /** Every Deployment of the spec comes up, and a verification run can start. */
  predicate ComesUp(spec: Spec, api: Api) {
    && api.postgresReady && api.realm.listed
    && (forall d | d in spec.deployments :: 0 < spec.deployments[d] <= Available(api, d) && d !in api.stalled)
    && api.verification.startListed && api.verification.hook && api.verification.account && api.verification.creates
  }

  lemma FirstPass(s: State, spec: Spec, api: Api, r: Name)
    requires L.AtRest(s, spec) && spec.restoreRequest == "" && api.database.read && api.fault.StatusWrite?
    requires spec.verification && spec.realm.Some? && InStep(s, r, spec.realm.value) && ComesUp(spec, api) && api.verification.name !in s.jobs
    ensures var s1, n := Pass(s, spec, api), api.verification.name;
            && n in s1.jobs && s1.jobs[n].purpose.VerifyJob? && s1.jobs == s.jobs[n := s1.jobs[n]]
            && s1.status == s.status && s1.postgres == s.postgres && s1.pods == s.pods
  {
    hide Finish, V.Adopt, R.DumpOf;
    L.AtRestPlan(s, spec, api);
    var plan := D.Stay(spec.database.claim);
    var planned := PlanRestore(s, spec, plan);
    var all := ApplyAll(s, spec, plan.volume, planned.dump, api);
    assert Pass(s, spec, api) == Finish(all, spec, plan, planned, api);
    P.FinishStays(all, spec, plan, planned, api);
    L.FinishStatusLost(all, spec, plan, planned, api);
    assert Newest(s.jobs, RealmRuns(s.jobs)) == r;
    FirstFinish(all, spec, plan, planned, api, r);
  }

  lemma FirstFinish(s: State, spec: Spec, plan: D.Plan, planned: R.Planned, api: Api, r: Name)
    requires planned == R.Planned(None, None) && !plan.start && !plan.copying && !api.fault.Components?
    requires spec.verification && spec.realm.Some? && InStep(s, r, spec.realm.value) && ComesUp(spec, api) && api.verification.name !in s.jobs
    requires PM.Applied(s, spec, None)
    ensures var jobs', n := Finish(s, spec, plan, planned, api).jobs, api.verification.name;
            n in jobs' && jobs'[n].purpose.VerifyJob? && jobs' == s.jobs[n := jobs'[n]]
  {
    hide V.Adopt, V.Collect, Tally, R.StepStopping, R.StepRunning, KeycloakSeen;
    var stepped := StepRestore(s, spec, plan, planned, api);
    assert stepped == R.Stepped(None, s.jobs, false);
    assert Newest(s.jobs, RealmRuns(s.jobs)) == r;
    var configured := ConfigureRealm(s, spec, plan, planned, stepped, api);
    assert configured == K.Configured(s.jobs, false);
    assert AllReady(s.replicas, Rendered(spec, None), api);
    assert Jobs.Running(s.jobs, VerifyRuns(s.jobs)) == {} by {
      assert VerifyRuns(s.jobs) <= AllVerifyRuns(s.jobs);
    }
    assert Delete(s.jobs, AllVerifyRuns(s.jobs) * api.verification.deletable) == s.jobs;
  }

  /**
   * A platform whose realm is in step becomes Ready, and the pass that begins its
   * verification loses its status write: with another realm rendered, the next pass for
   * which all goes well begins a realm run beside the verification.
   */
  lemma LostWriteShows(s: State, spec: Spec, api: Api, r: Name, spec': Spec, api': Api)
    requires PU.Apart(s.jobs, s.status.verification, true)
    requires L.AtRest(s, spec) && spec.restoreRequest == "" && api.database.read && api.fault.StatusWrite?
    requires spec.verification && spec.realm.Some? && InStep(s, r, spec.realm.value) && ComesUp(spec, api) && api.verification.name !in s.jobs
    requires spec'.database == spec.database && spec'.restoreRequest == "" && spec'.verification
    requires spec'.realm.Some? && spec'.realm != spec.realm && api'.database.read && api'.fault.NoFault?
    requires PM.KeycloakUp(spec', None, api') && api'.realm.listed && api'.realm.creates && r in api'.realm.deletable
    requires api'.realm.name !in s.jobs && api'.realm.name != api.verification.name
    ensures !PU.NotBoth(Pass(Pass(s, spec, api), spec', api').jobs)
  {
    hide Pass, D.PlanDatabase, PU.Apart, PU.NotBoth, ComesUp;
    var s1 := Pass(s, spec, api);
    FirstPass(s, spec, api, r);
    L.AtRestPlan(s1, spec', api');
    assert RealmRuns(s1.jobs) == {r};
    assert forall k | k in s1.jobs && PM.RealmRun(s1.jobs[k]) :: k in RealmRuns(s1.jobs);
    assert r in RealmRuns(s.jobs);
    PM.DueAfterOne(spec'.realm.value, s1.jobs, s1.now, r);
    RealmMeetsVerificationIff(s, spec, api, api.verification.name, spec', api');
  }
}
