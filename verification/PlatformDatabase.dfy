/**
 * The bundled Postgres over every run: it moves only onto a fresh copy of itself, and
 * what was committed before that copy began is there afterwards.
 */
module PlatformDatabase {
  import opened Basics
  import opened Jobs
  import opened Platform
  import D = Database
  import R = Restore
  import K = RealmRun
  import V = Verification

  /** The bundled Postgres is meant for `claim` in every pass; the databases may be external in some. */
  predicate Steady(e: Event, claim: Volume) {
    e.Reconcile? ==> e.spec.database.claim == claim
  }

  predicate AllSteady(events: seq<Event>, claim: Volume) {
    forall i | 0 <= i < |events| :: Steady(events[i], claim)
  }

  predicate OurCopy(j: Job) {
    j.ours && j.purpose.CopyJob?
  }

  /** A copy is the only one kept; while it runs the Postgres stays on its source. */
  ghost predicate CopyInv(jobs: Table, postgres: D.Postgres, claim: Volume) {
    && (forall n, m | n in jobs && m in jobs && OurCopy(jobs[n]) && OurCopy(jobs[m])
                      && !jobs[n].deleting && !jobs[m].deleting :: n == m)
    && (forall n | n in jobs && OurCopy(jobs[n]) ::
          && jobs[n].purpose.target == claim && jobs[n].purpose.source != claim
          && (postgres.On? ==> postgres.volume in {jobs[n].purpose.source, claim})
          && (jobs[n].outcome.Unfinished? ==> !jobs[n].deleting && postgres == D.On(jobs[n].purpose.source)))
  }

  /** A copy that may still be switched to holds what the database held when it began. */
  ghost predicate Whole(jobs: Table, postgres: D.Postgres, contents: map<Volume, set<nat>>) {
    forall n | n in jobs && OurCopy(jobs[n]) && !jobs[n].deleting && jobs[n].outcome.Complete?
               && postgres == D.On(jobs[n].purpose.source) ::
      jobs[n].purpose.held <= Content(contents, jobs[n].purpose.target)
  }

  ghost predicate Inv(s: State, claim: Volume) {
    CopyInv(s.jobs, s.postgres, claim) && Whole(s.jobs, s.postgres, s.contents)
  }

  // ---- what each part of a pass does to the Jobs ----

  lemma StepRestoreTouches(restore: Option<R.Status>, jobs: Table, pods: map<string, nat>,
                           render: map<string, nat>, scheduled: bool, now: Time, api: R.Api)
    ensures Touches(jobs, R.StepRestore(restore, jobs, pods, render, scheduled, now, api).jobs, {RestoreKind}, {RestoreKind, RealmKind})
  {
    if R.InProgress(restore).Some? {
      if restore.value.result.Stopping? {
        StoppingTouches(restore.value, R.InProgress(restore).value, jobs, pods, render, scheduled, now, api);
      } else {
        RunningTouches(restore.value, jobs, now, api);
      }
    }
  }

  lemma StoppingTouches(rs: R.Status, dump: string, jobs: Table, pods: map<string, nat>,
                        render: map<string, nat>, scheduled: bool, now: Time, api: R.Api)
    ensures Touches(jobs, R.StepStopping(rs, dump, jobs, pods, render, scheduled, now, api).jobs, {RestoreKind}, {RestoreKind, RealmKind})
  {
  }

  lemma RunningTouches(rs: R.Status, jobs: Table, now: Time, api: R.Api)
    ensures Touches(jobs, R.StepRunning(rs, jobs, now, api).jobs, {RestoreKind}, {RestoreKind, RealmKind})
  {
  }

  lemma ConfigureRealmTouches(hook: Option<string>, jobs: Table, keycloak: K.Keycloak, hold: bool,
                              verifying: bool, now: Time, api: K.Api)
    ensures Touches(jobs, K.ConfigureRealm(hook, jobs, keycloak, hold, verifying, now, api).jobs, {RealmKind}, {RealmKind})
  {
  }

  lemma VerifyTouches(enabled: bool, prev: Option<V.Status>, jobs: Table, ask: V.Ask, ready: bool, now: Time, api: V.Api)
    ensures Touches(jobs, V.Step(enabled, prev, jobs, ask, ready, now, api).jobs, {VerifyKind}, {VerifyKind})
  {
  }

  /** After the copy it may start, a pass leaves the copies alone. */
  lemma FinishTouches(s: State, spec: Spec, plan: D.Plan, planned: R.Planned, api: Api)
    ensures Touches(JobsCopied(s, spec, plan, planned.dump, api), Finish(s, spec, plan, planned, api).jobs,
                    {RestoreKind, RealmKind, VerifyKind}, {RestoreKind, RealmKind, VerifyKind})
  {
    hide R.StepRestore, K.ConfigureRealm, V.Step, JobsCopied, AllReady, Rendered, KeycloakSeen, Asked, Tally, Touches;
    var copied := JobsCopied(s, spec, plan, planned.dump, api);
    var render := Rendered(spec, planned.dump);
    var stepped := StepRestore(s, spec, plan, planned, api);
    StepRestoreTouches(planned.restore, copied, s.pods, render, StillScheduled(s, spec, api), s.now, api.restore);
    var all := {RestoreKind, RealmKind, VerifyKind};
    TouchesMore(copied, stepped.jobs, {RestoreKind}, {RestoreKind, RealmKind}, all, all);
    if !api.fault.Components? {
      var configured := ConfigureRealm(s, spec, plan, planned, stepped, api);
      ConfigureRealmTouches(spec.realm, stepped.jobs, KeycloakSeen(s.replicas, render, api),
                            plan.copying || stepped.inFlight, V.IsRunning(s.status.verification), s.now, api.realm);
      var verified := Verify(s, spec, plan, planned, stepped, configured, api);
      var ready := AllReady(s.replicas, render, api) && !configured.soon && !plan.copying && !stepped.inFlight;
      VerifyTouches(spec.verification, s.status.verification, configured.jobs, Asked(spec), ready, s.now, api.verification);
      TouchesTransitive(copied, stepped.jobs, configured.jobs, {RestoreKind}, {RestoreKind, RealmKind}, {RealmKind}, {RealmKind});
      TouchesTransitive(copied, configured.jobs, verified.jobs, {RestoreKind} + {RealmKind}, {RestoreKind, RealmKind} + {RealmKind},
                        {VerifyKind}, {VerifyKind});
      TouchesMore(copied, verified.jobs, {RestoreKind} + {RealmKind} + {VerifyKind},
                  {RestoreKind, RealmKind} + {RealmKind} + {VerifyKind}, all, all);
    }
  }

  // ---- the invariant, part by part ----

  lemma OtherKindsKeep(jobs: Table, jobs': Table, s: State, claim: Volume, kinds: set<Kind>)
    requires Touches(jobs, jobs', kinds, kinds) && CopyKind !in kinds
    requires Inv(s.(jobs := jobs), claim)
    ensures Inv(s.(jobs := jobs'), claim)
  {
  }

  /** A copy of the running volume onto `claim` succeeded at most the window ago, and holds all it saw. */
  ghost predicate SwitchReady(s: State, claim: Volume) {
    exists n :: n in s.jobs && SwitchCopy(s, s.jobs[n], claim)
  }

  ghost predicate SwitchCopy(s: State, j: Job, claim: Volume) {
    && OurCopy(j) && !j.deleting && j.outcome.Complete? && s.now - j.outcome.at <= D.SWITCH_WINDOW
    && s.postgres == D.On(j.purpose.source) && j.purpose.target == claim
    && j.purpose.held <= Content(s.contents, claim)
  }

  /**
   * The plan of a pass: it names the running volume unless it switches, and starts a copy
   * only when there is none; with external databases it does nothing.
   */
  ghost predicate SoundPlan(s: State, claim: Volume, plan: D.Plan, jobs: Table) {
    if plan.volume.None? then !plan.start && !plan.copying && !plan.switching
    else SoundMove(s, claim, plan, jobs)
  }

  ghost predicate SoundMove(s: State, claim: Volume, plan: D.Plan, jobs: Table)
    requires plan.volume.Some?
  {
    && (plan.start || plan.switching ==> plan.copying)
    && (s.postgres.On? && !plan.switching ==> s.postgres == D.On(plan.volume.value))
    && (!s.postgres.On? ==> plan.volume.value == claim && !plan.switching)
    && (plan.switching ==> plan.volume.value == claim && SwitchReady(s.(jobs := jobs), claim))
    && (plan.start ==> s.postgres.On? && plan.volume.value != claim && Copies(jobs, plan.volume.value, claim) == {})
  }

  lemma PlanIsSound(s: State, spec: D.Spec, api: D.Api)
    requires Inv(s, spec.claim)
    ensures match D.PlanDatabase(spec, s.postgres, s.jobs, s.now, api)
            case Unknown => true
            case Decided(plan, jobs) => SoundPlan(s, spec.claim, plan, jobs) && (plan.volume.Some? <==> spec.bundled)
  {
    if s.postgres.On? && s.postgres.volume != spec.claim {
      var copies := Copies(s.jobs, s.postgres.volume, spec.claim);
      if copies != {} {
        var latest := Newest(s.jobs, copies);
        assert latest in copies;
        assert Copies(Delete(s.jobs, {latest}), s.postgres.volume, spec.claim) == {};
        if s.jobs[latest].outcome.Complete? && s.now - s.jobs[latest].outcome.at <= D.SWITCH_WINDOW {
          assert SwitchCopy(s, s.jobs[latest], spec.claim);
        }
      }
    }
  }

  /**
   * A copy is started if and only if the databases are bundled, the migration is on, the Postgres is available and not
   * on its claim, and no copy of it onto the claim is kept: a stale one has gone, and one
   * that failed stays in the way.
   */
  lemma CopyStartsIff(s: State, spec: D.Spec, api: D.Api)
    requires Inv(s, spec.claim)
    ensures match D.PlanDatabase(spec, s.postgres, s.jobs, s.now, api)
            case Unknown => true
            case Decided(plan, jobs) =>
              plan.start <==> spec.bundled && spec.migrate && api.available && s.postgres.On? && s.postgres.volume != spec.claim
                              && Copies(jobs, s.postgres.volume, spec.claim) == {}
  {
    if s.postgres.On? && s.postgres.volume != spec.claim {
      var copies := Copies(s.jobs, s.postgres.volume, spec.claim);
      if copies != {} {
        var latest := Newest(s.jobs, copies);
        assert latest in copies;
        assert Copies(Delete(s.jobs, {latest}), s.postgres.volume, spec.claim) == {};
      }
    }
  }

  lemma PlanKeeps(s: State, spec: D.Spec, api: D.Api)
    requires Inv(s, spec.claim)
    ensures match D.PlanDatabase(spec, s.postgres, s.jobs, s.now, api)
            case Unknown => true
            case Decided(_, jobs) => Inv(s.(jobs := jobs), spec.claim)
  {
    if s.postgres.On? {
      var copies := Copies(s.jobs, s.postgres.volume, spec.claim);
      if copies != {} && s.jobs[Newest(s.jobs, copies)].outcome.Complete? {
        DeleteKeeps(s, Newest(s.jobs, copies), spec.claim);
      }
    }
  }

  lemma DeleteKeeps(s: State, n: Name, claim: Volume)
    requires Inv(s, claim) && n in s.jobs && s.jobs[n].outcome.Complete?
    ensures Inv(s.(jobs := Delete(s.jobs, {n})), claim)
  {
  }

  /** Once on its claim — switched to, or new there — the Postgres keeps the invariant. */
  lemma OnClaimKeeps(s: State, claim: Volume)
    requires Inv(s, claim)
    requires s.postgres.On? ==> SwitchReady(s, claim) || s.postgres.volume == claim
    ensures Inv(s.(postgres := D.On(claim)), claim)
  {
    if s.postgres.On? && s.postgres.volume != claim {
      var n :| n in s.jobs && SwitchCopy(s, s.jobs[n], claim);
    }
  }

  lemma StartKeeps(s: State, spec: Spec, plan: D.Plan, dump: Option<string>, api: Api)
    requires Inv(s, spec.database.claim)
    requires plan.start ==> plan.volume.Some? && s.postgres == D.On(plan.volume.value) && plan.volume.value != spec.database.claim
                            && Copies(s.jobs, plan.volume.value, spec.database.claim) == {}
    ensures Inv(s.(jobs := JobsCopied(s, spec, plan, dump, api)), spec.database.claim)
  {
    if plan.start {
      assert forall n | n in s.jobs && OurCopy(s.jobs[n]) && !s.jobs[n].deleting ::
          n in Copies(s.jobs, plan.volume.value, spec.database.claim);
    }
  }

  lemma FinishKeeps(s: State, spec: Spec, plan: D.Plan, planned: R.Planned, api: Api)
    requires Inv(s, spec.database.claim)
    requires plan.start ==> plan.volume.Some? && s.postgres == D.On(plan.volume.value) && plan.volume.value != spec.database.claim
                            && Copies(s.jobs, plan.volume.value, spec.database.claim) == {}
    ensures Inv(Finish(s, spec, plan, planned, api), spec.database.claim)
  {
    var copied := JobsCopied(s, spec, plan, planned.dump, api);
    StartKeeps(s, spec, plan, planned.dump, api);
    FinishTouches(s, spec, plan, planned, api);
    OtherKindsKeep(copied, Finish(s, spec, plan, planned, api).jobs, s, spec.database.claim,
                   {RestoreKind, RealmKind, VerifyKind});
  }

  /** The invariant reads the Jobs, the Postgres and the contents alone. */
  lemma SameKeeps(s: State, s': State, claim: Volume)
    requires Inv(s, claim)
    requires s'.jobs == s.jobs && s'.postgres == s.postgres && s'.contents == s.contents
    ensures Inv(s', claim)
  {
  }

  lemma SwitchedKeeps(s: State, plan: D.Plan, claim: Volume)
    requires Inv(s, claim) && SoundPlan(s, claim, plan, s.jobs)
    ensures Inv(Switched(s, plan), claim)
    ensures plan.volume.Some? && !plan.switching && s.postgres.On? ==> Switched(s, plan).postgres == D.On(plan.volume.value)
    ensures plan.switching ==> Switched(s, plan).postgres == D.On(claim)
  {
    if plan.switching {
      OnClaimKeeps(s, claim);
      SameKeeps(s.(postgres := D.On(claim)), Switched(s, plan), claim);
    }
  }

  lemma AppliedKeeps(s: State, spec: Spec, volume: Option<Volume>, dump: Option<string>, api: Api)
    requires Inv(s, spec.database.claim)
    requires volume.Some? ==> volume.value == if s.postgres.On? then s.postgres.volume else spec.database.claim
    ensures Inv(ApplyAll(s, spec, volume, dump, api), spec.database.claim)
    ensures Inv(ApplySome(s, spec, volume, dump, api), spec.database.claim)
  {
    if volume.Some? && !s.postgres.On? { OnClaimKeeps(s, spec.database.claim); }
    var on := if volume.Some? then s.(postgres := D.On(volume.value)) else s;
    SameKeeps(on, ApplyAll(s, spec, volume, dump, api), spec.database.claim);
    SameKeeps(if api.reachedPostgres then on else s, ApplySome(s, spec, volume, dump, api), spec.database.claim);
  }

  lemma ApplyAndFinishKeeps(s: State, spec: Spec, plan: D.Plan, api: Api)
    requires Inv(s, spec.database.claim) && SoundPlan(s, spec.database.claim, plan, s.jobs)
    ensures var planned := PlanRestore(s, spec, plan);
            var applied := ApplyAll(Switched(s, plan), spec, plan.volume, planned.dump, api);
            Inv(Finish(applied, spec, plan, planned, api), spec.database.claim)
  {
    var planned := PlanRestore(s, spec, plan);
    SwitchedKeeps(s, plan, spec.database.claim);
    AppliedKeeps(Switched(s, plan), spec, plan.volume, planned.dump, api);
    FinishKeeps(ApplyAll(Switched(s, plan), spec, plan.volume, planned.dump, api), spec, plan, planned, api);
  }

  lemma BreakOffKeeps(s: State, spec: Spec, plan: D.Plan, api: Api)
    requires Inv(s, spec.database.claim) && SoundPlan(s, spec.database.claim, plan, s.jobs)
    ensures var planned := PlanRestore(s, spec, plan);
            && Inv(Noted(s, planned, api.noted), spec.database.claim)
            && Inv(Noted(ApplySome(Switched(s, plan), spec, plan.volume, planned.dump, api), planned, api.noted), spec.database.claim)
  {
    var planned := PlanRestore(s, spec, plan);
    var partly := ApplySome(Switched(s, plan), spec, plan.volume, planned.dump, api);
    SwitchedKeeps(s, plan, spec.database.claim);
    AppliedKeeps(Switched(s, plan), spec, plan.volume, planned.dump, api);
    SameKeeps(s, Noted(s, planned, api.noted), spec.database.claim);
    SameKeeps(partly, Noted(partly, planned, api.noted), spec.database.claim);
  }

  lemma CarryOutKeeps(s: State, spec: Spec, plan: D.Plan, api: Api)
    requires Inv(s, spec.database.claim) && SoundPlan(s, spec.database.claim, plan, s.jobs)
    ensures Inv(CarryOut(s, spec, plan, api), spec.database.claim)
  {
    ApplyAndFinishKeeps(s, spec, plan, api);
    BreakOffKeeps(s, spec, plan, api);
  }

  lemma PassKeeps(s: State, spec: Spec, api: Api)
    requires Inv(s, spec.database.claim)
    ensures Inv(Pass(s, spec, api), spec.database.claim)
  {
    PlanIsSound(s, spec.database, api.database);
    PlanKeeps(s, spec.database, api.database);
    match D.PlanDatabase(spec.database, s.postgres, s.jobs, s.now, api.database)
    case Unknown =>
    case Decided(plan, jobs) =>
      CarryOutKeeps(s.(jobs := jobs), spec, plan, api);
  }

  // ---- between passes ----

  lemma EndKeeps(s: State, name: Name, success: bool, data: set<nat>, claim: Volume)
    requires Inv(s, claim) && name in s.jobs && s.jobs[name].outcome.Unfinished?
    ensures Inv(JobEnds(s, name, success, data), claim)
  {
  }

  lemma EventKeeps(s: State, e: Event, claim: Volume)
    requires Inv(s, claim) && Steady(e, claim)
    ensures Inv(Do(s, e), claim)
  {
    hide Pass, JobEnds;
    match e
    case Reconcile(spec, api) => PassKeeps(s, spec, api);
    case Ends(name, success, data) =>
      if name in s.jobs && s.jobs[name].outcome.Unfinished? { EndKeeps(s, name, success, data, claim); }
    case _ =>
  }

  lemma {:induction false} RunKeeps(s: State, events: seq<Event>, claim: Volume)
    requires Inv(s, claim) && AllSteady(events, claim)
    ensures Inv(Run(s, events), claim)
    decreases |events|
  {
    if events != [] {
      assert Steady(events[0], claim);
      EventKeeps(s, events[0], claim);
      assert AllSteady(events[1..], claim);
      RunKeeps(Do(s, events[0]), events[1..], claim);
    }
  }

  // ---- the theorems ----

  /** What a pass never changes. */
  ghost predicate SameWorld(s: State, s': State) {
    s'.now == s.now && s'.contents == s.contents && s'.commits == s.commits && s'.pods == s.pods
  }

  ghost predicate SamePostgres(s: State, s': State) {
    s'.postgres == s.postgres && s'.copiedAt == s.copiedAt && s'.switchedAt == s.switchedAt
  }

  lemma FinishStays(s: State, spec: Spec, plan: D.Plan, planned: R.Planned, api: Api)
    ensures SameWorld(s, Finish(s, spec, plan, planned, api)) && SamePostgres(s, Finish(s, spec, plan, planned, api))
    ensures Finish(s, spec, plan, planned, api).replicas == s.replicas
  {
    hide JobsCopied, StepRestore, ConfigureRealm, Verify, Tally, Rendered;
  }

  /** Nothing, the switch, or a Postgres new on its claim. */
  ghost predicate Moves(s: State, s': State, plan: D.Plan, claim: Volume) {
    || SamePostgres(s, s')
    || (plan.switching && s.postgres.On? && SamePostgres(Switched(s, plan), s'))
    || (!s.postgres.On? && SamePostgres(s.(postgres := D.On(claim)), s'))
  }

  lemma ApplyMoves(s: State, spec: Spec, plan: D.Plan, dump: Option<string>, api: Api)
    requires SoundPlan(s, spec.database.claim, plan, s.jobs)
    ensures var all, some := ApplyAll(Switched(s, plan), spec, plan.volume, dump, api), ApplySome(Switched(s, plan), spec, plan.volume, dump, api);
            && SameWorld(s, all) && Moves(s, all, plan, spec.database.claim)
            && SameWorld(s, some) && Moves(s, some, plan, spec.database.claim)
  {
    hide Rendered, SwitchReady, Copies, Newest, Stops;
  }

  lemma CarryOutMoves(s: State, spec: Spec, plan: D.Plan, api: Api)
    requires SoundPlan(s, spec.database.claim, plan, s.jobs)
    ensures SameWorld(s, CarryOut(s, spec, plan, api)) && Moves(s, CarryOut(s, spec, plan, api), plan, spec.database.claim)
  {
    hide Finish, PlanRestore, SoundPlan, Switched, ApplyAll, ApplySome;
    var planned := PlanRestore(s, spec, plan);
    ApplyMoves(s, spec, plan, planned.dump, api);
    if api.fault.Certificate? {
    } else if api.fault.Render? || api.fault.Secrets? || (plan.switching && api.fault.Switch?) {
    } else if api.fault.Apply? {
    } else {
      var all := ApplyAll(Switched(s, plan), spec, plan.volume, planned.dump, api);
      FinishStays(all, spec, plan, planned, api);
      assert CarryOut(s, spec, plan, api) == Finish(all, spec, plan, planned, api);
    }
  }

  /**
   * The Postgres changes its volume only onto the claim, and only onto a copy of the
   * volume it runs on that ended within the window; all that copy saw is served then.
   */
  lemma SwitchesOnlyOntoACopy(s: State, e: Event, claim: Volume)
    requires Inv(s, claim) && Steady(e, claim) && s.postgres.On? && Do(s, e).postgres != s.postgres
    ensures Do(s, e).postgres == D.On(claim)
    ensures exists n :: n in s.jobs && SwitchCopy(s, s.jobs[n], claim) && s.jobs[n].purpose.held <= Served(Do(s, e))
  {
    hide CarryOut;
    assert e.Reconcile?;
    var spec, api := e.spec, e.api;
    PlanIsSound(s, spec.database, api.database);
    match D.PlanDatabase(spec.database, s.postgres, s.jobs, s.now, api.database)
    case Decided(plan, jobs) =>
      CarryOutMoves(s.(jobs := jobs), spec, plan, api);
  }

  /** A run in which no restore puts an older database back. */
  ghost predicate Undisturbed(s: State, events: seq<Event>)
    decreases |events|
  {
    events == [] || (!RestoreEnds(s, events[0]) && Undisturbed(Do(s, events[0]), events[1..]))
  }

  predicate RestoreEnds(s: State, e: Event) {
    e.Ends? && e.name in s.jobs && s.jobs[e.name].ours && s.jobs[e.name].purpose.RestoreJob?
  }

  /**
   * Every write committed so far is in the running database, but for those committed
   * between the beginning of the copy it was switched onto and the switch.
   */
  ghost predicate NothingElseLost(s: State) {
    s.postgres.On? ==> forall w: nat | w < s.commits :: w in Served(s) || s.copiedAt <= w < s.switchedAt
  }

  ghost predicate Accounts(s: State, claim: Volume) {
    && NothingElseLost(s)
    && (s.postgres.On? ==> s.postgres.volume == claim || s.switchedAt <= s.copiedAt)
    && (!s.postgres.On? ==> s.commits == 0 && s.postgres.Missing?)
    && AllCopiesFull(s)
  }

  /** Until the switch, a copy holds every write committed before it began. */
  ghost predicate AllCopiesFull(s: State) {
    forall n | n in s.jobs && OurCopy(s.jobs[n]) && !s.jobs[n].deleting && s.postgres == D.On(s.jobs[n].purpose.source) ::
      forall w: nat | w < s.jobs[n].purpose.began :: w in s.jobs[n].purpose.held
  }

  /** A copy this pass has begun. */
  ghost predicate Begun(s: State, j: Job) {
    && OurCopy(j) && j.outcome.Unfinished? && s.postgres == D.On(j.purpose.source)
    && j.purpose.began == s.commits && j.purpose.held == Served(s)
  }

  lemma FinishCopies(s: State, spec: Spec, plan: D.Plan, planned: R.Planned, api: Api)
    requires plan.start ==> plan.volume.Some? && s.postgres == D.On(plan.volume.value)
    ensures var jobs := Finish(s, spec, plan, planned, api).jobs;
            forall n | n in jobs && OurCopy(jobs[n]) && !jobs[n].deleting ::
              (n in s.jobs && jobs[n] == s.jobs[n]) || (plan.start && planned.dump.None? && Begun(s, jobs[n]))
  {
    hide Finish;
    FinishTouches(s, spec, plan, planned, api);
  }

  lemma CarryOutCopies(s: State, spec: Spec, plan: D.Plan, api: Api)
    requires SoundPlan(s, spec.database.claim, plan, s.jobs)
    ensures var jobs := CarryOut(s, spec, plan, api).jobs;
            forall n | n in jobs && OurCopy(jobs[n]) && !jobs[n].deleting ::
              (n in s.jobs && jobs[n] == s.jobs[n]) || (plan.start && PlanRestore(s, spec, plan).dump.None? && Begun(s, jobs[n]))
  {
    hide Finish, PlanRestore, Rendered, SoundPlan, ApplyAll, ApplySome, Switched, Served, Noted;
    var planned := PlanRestore(s, spec, plan);
    var all := ApplyAll(Switched(s, plan), spec, plan.volume, planned.dump, api);
    AppliedSame(s, spec, plan, planned.dump, api);
    if api.fault.Certificate? {
    } else if api.fault.Render? || api.fault.Secrets? || (plan.switching && api.fault.Switch?) {
      NotedSame(s, planned, api.noted);
    } else if api.fault.Apply? {
      NotedSame(ApplySome(Switched(s, plan), spec, plan.volume, planned.dump, api), planned, api.noted);
    } else {
      FinishCopies(all, spec, plan, planned, api);
      assert CarryOut(s, spec, plan, api) == Finish(all, spec, plan, planned, api);
      assert forall j | plan.start && Begun(all, j) :: Begun(s, j);
    }
  }

  lemma NotedSame(s: State, planned: R.Planned, written: bool)
    ensures Noted(s, planned, written).jobs == s.jobs
  {
  }

  lemma AppliedSame(s: State, spec: Spec, plan: D.Plan, dump: Option<string>, api: Api)
    requires SoundPlan(s, spec.database.claim, plan, s.jobs)
    ensures var all := ApplyAll(Switched(s, plan), spec, plan.volume, dump, api);
            && all.jobs == s.jobs && all.commits == s.commits
            && ApplySome(Switched(s, plan), spec, plan.volume, dump, api).jobs == s.jobs
            && (plan.start ==> plan.volume.Some? && s.postgres == D.On(plan.volume.value))
            && (plan.start ==> all.postgres == s.postgres && Served(all) == Served(s))
  {
    hide Rendered, SwitchReady;
  }

  lemma CarryOutAccounts(s: State, spec: Spec, plan: D.Plan, api: Api)
    requires Inv(s, spec.database.claim) && Accounts(s, spec.database.claim) && SoundPlan(s, spec.database.claim, plan, s.jobs)
    ensures Accounts(CarryOut(s, spec, plan, api), spec.database.claim)
  {
    hide CarryOut;
    var s' := CarryOut(s, spec, plan, api);
    CarryOutMoves(s, spec, plan, api);
    CarryOutCopies(s, spec, plan, api);
    if plan.switching && SamePostgres(Switched(s, plan), s') {
      SwitchAccounts(s, plan, spec.database.claim);
      assert s'.postgres == D.On(spec.database.claim) && Served(s') == Served(Switched(s, plan));
      assert AllCopiesFull(s');
    } else if !s.postgres.On? {
    } else {
      assert SamePostgres(s, s') && Served(s') == Served(s);
      assert AllCopiesFull(s');
    }
  }

  /** What the switch serves is what its copy held, and the account says so. */
  lemma SwitchAccounts(s: State, plan: D.Plan, claim: Volume)
    requires Inv(s, claim) && Accounts(s, claim) && SoundPlan(s, claim, plan, s.jobs) && plan.switching
    ensures NothingElseLost(Switched(s, plan))
  {
    var n :| n in s.jobs && SwitchCopy(s, s.jobs[n], claim);
    assert n in Copies(s.jobs, s.postgres.volume, claim);
  }

  lemma PassAccounts(s: State, spec: Spec, api: Api)
    requires Inv(s, spec.database.claim) && Accounts(s, spec.database.claim)
    ensures Accounts(Pass(s, spec, api), spec.database.claim)
  {
    hide CarryOut, D.PlanDatabase, SwitchReady, Inv;
    PlanIsSound(s, spec.database, api.database);
    PlanKeeps(s, spec.database, api.database);
    PlanTouches(spec.database, s.postgres, s.jobs, s.now, api.database);
    match D.PlanDatabase(spec.database, s.postgres, s.jobs, s.now, api.database)
    case Unknown =>
    case Decided(plan, jobs) =>
      assert AllCopiesFull(s.(jobs := jobs));
      assert Served(s.(jobs := jobs)) == Served(s);
      CarryOutAccounts(s.(jobs := jobs), spec, plan, api);
  }

  lemma PlanTouches(spec: D.Spec, postgres: D.Postgres, jobs: Table, now: Time, api: D.Api)
    ensures match D.PlanDatabase(spec, postgres, jobs, now, api)
            case Unknown => true
            case Decided(_, jobs') => Touches(jobs, jobs', {}, {CopyKind})
  {
  }

  lemma EndAccounts(s: State, name: Name, success: bool, data: set<nat>, claim: Volume)
    requires Inv(s, claim) && Accounts(s, claim) && name in s.jobs && s.jobs[name].outcome.Unfinished?
    requires !(s.jobs[name].ours && s.jobs[name].purpose.RestoreJob?)
    ensures Accounts(JobEnds(s, name, success, data), claim)
  {
    assert Served(JobEnds(s, name, success, data)) == Served(s);
  }

  lemma EventAccounts(s: State, e: Event, claim: Volume)
    requires Inv(s, claim) && Accounts(s, claim) && Steady(e, claim) && !RestoreEnds(s, e)
    ensures Accounts(Do(s, e), claim)
  {
    hide Pass, JobEnds, Inv, Accounts;
    match e
    case Reconcile(spec, api) => PassAccounts(s, spec, api);
    case Ends(name, success, data) =>
      if name in s.jobs && s.jobs[name].outcome.Unfinished? { EndAccounts(s, name, success, data, claim); }
    case Commit => CommitAccounts(s, claim);
    case _ => BesideAccounts(s, e, claim);
  }

  lemma CommitAccounts(s: State, claim: Volume)
    requires Accounts(s, claim)
    ensures Accounts(Do(s, Commit), claim)
  {
    assert s.postgres.On? ==> Served(Do(s, Commit)) == Served(s) + {s.commits};
  }

  lemma BesideAccounts(s: State, e: Event, claim: Volume)
    requires Accounts(s, claim) && !e.Reconcile? && !e.Ends? && !e.Commit?
    ensures Accounts(Do(s, e), claim)
  {
    hide Pass, JobEnds, Accounts;
    AccountsSame(s, Do(s, e), claim);
  }

  lemma AccountsSame(s: State, s': State, claim: Volume)
    requires Accounts(s, claim) && SamePostgres(s, s') && s'.contents == s.contents && s'.commits == s.commits
    requires forall n | n in s'.jobs && OurCopy(s'.jobs[n]) :: n in s.jobs && s'.jobs[n] == s.jobs[n]
    ensures Accounts(s', claim)
  {
    assert Served(s') == Served(s);
  }

  /**
   * Over any run, whatever breaks off or is toggled: the only committed writes the
   * running database may lack are those committed after the copy it was switched onto
   * began and before the switch.
   */
  lemma {:induction false} OnlyWritesDuringTheCopyAreLost(s: State, events: seq<Event>, claim: Volume)
    requires Inv(s, claim) && Accounts(s, claim) && AllSteady(events, claim) && Undisturbed(s, events)
    ensures NothingElseLost(Run(s, events))
    decreases |events|
  {
    if events != [] {
      assert Steady(events[0], claim);
      EventKeeps(s, events[0], claim);
      EventAccounts(s, events[0], claim);
      assert AllSteady(events[1..], claim);
      OnlyWritesDuringTheCopyAreLost(Do(s, events[0]), events[1..], claim);
    }
  }
}
