/**
 * When the bundled Postgres is copied and when it moves: guards on what a pass is given,
 * exact in every state a run can reach.
 */
module PlatformMigration {
  import opened Basics
  import opened Jobs
  import opened Platform
  import P = PlatformDatabase
  import PR = PlatformRestore
  import D = Database
  import R = Restore

  /** The Postgres runs beside its claim, and is to move there. */
  predicate ToMove(s: State, spec: D.Spec) {
    spec.bundled && spec.migrate && s.postgres.On? && s.postgres.volume != spec.claim
  }

  /** A copy of the running volume that is kept. */
  predicate KeptCopy(s: State, n: Name) {
    && n in s.jobs && s.jobs[n].ours && !s.jobs[n].deleting && s.jobs[n].purpose.CopyJob?
    && s.postgres == D.On(s.jobs[n].purpose.source)
  }

  /** One that succeeded within the last five minutes, and one that did before. */
  predicate FreshCopy(s: State, n: Name) {
    KeptCopy(s, n) && s.jobs[n].outcome.Complete? && s.now - s.jobs[n].outcome.at <= 300
  }

  predicate StaleCopy(s: State, n: Name) {
    KeptCopy(s, n) && s.jobs[n].outcome.Complete? && 300 < s.now - s.jobs[n].outcome.at
  }

  /** The decision cannot be made: the pass ends there. */
  ghost predicate Undecidable(s: State, spec: D.Spec, api: D.Api) {
    && spec.bundled
    && (|| !api.read || s.postgres.Strange?
        || (ToMove(s, spec) && (!api.listed || exists n :: StaleCopy(s, n) && n !in api.deletable)))
  }

  lemma OnlyOneKept(s: State, spec: D.Spec)
    requires P.Inv(s, spec.claim) && s.postgres.On? && s.postgres.volume != spec.claim
    ensures forall n :: KeptCopy(s, n) <==> n in Copies(s.jobs, s.postgres.volume, spec.claim)
    ensures forall n, m | KeptCopy(s, n) && KeptCopy(s, m) :: n == m
    ensures forall n | KeptCopy(s, n) :: Newest(s.jobs, Copies(s.jobs, s.postgres.volume, spec.claim)) == n
  {
    forall n | KeptCopy(s, n)
      ensures n in Copies(s.jobs, s.postgres.volume, spec.claim) && Newest(s.jobs, Copies(s.jobs, s.postgres.volume, spec.claim)) == n
    {
      assert P.OurCopy(s.jobs[n]);
    }
  }

  /**
   * The decision, by the one copy that may be kept. It switches exactly onto one that
   * succeeded within five minutes, starts one exactly where there is none or a stale one,
   * which goes, and holds everything else back until one has failed.
   */
  lemma DecisionIs(s: State, spec: D.Spec, api: D.Api)
    requires P.Inv(s, spec.claim)
    ensures match D.PlanDatabase(spec, s.postgres, s.jobs, s.now, api)
            case Unknown => Undecidable(s, spec, api)
            case Decided(plan, jobs) =>
              && !Undecidable(s, spec, api)
              && (plan.switching <==> ToMove(s, spec) && exists n :: FreshCopy(s, n))
              && (plan.start <==> ToMove(s, spec) && api.available && forall n :: KeptCopy(s, n) ==> StaleCopy(s, n))
              && (plan.copying <==> ToMove(s, spec) && forall n :: KeptCopy(s, n) ==> !s.jobs[n].outcome.Failed?)
              && (plan.migrate <==> plan.copying && !plan.switching) && (plan.start ==> plan.migrate)
              && plan.volume == (if !spec.bundled then None else if s.postgres.On? && !plan.switching then Some(s.postgres.volume) else Some(spec.claim))
              && jobs.Keys == s.jobs.Keys
              && forall n | n in jobs :: jobs[n] == if ToMove(s, spec) && StaleCopy(s, n) then s.jobs[n].(deleting := true) else s.jobs[n]
  {
    if ToMove(s, spec) {
      OnlyOneKept(s, spec);
      var copies := Copies(s.jobs, s.postgres.volume, spec.claim);
      if copies == {} {
        assert forall n :: !KeptCopy(s, n);
      } else {
        var n := Newest(s.jobs, copies);
        assert KeptCopy(s, n);
        assert FreshCopy(s, n) || StaleCopy(s, n) || !s.jobs[n].outcome.Complete?;
      }
    }
  }

  /** The pass ends before it comes to move the Postgres. */
  predicate EndsBeforeMoving(api: Api) {
    api.fault in {Deferred, Certificate, Render, Secrets, Switch}
  }

  /**
   * A pass moves the Postgres if and only if it is to move, the copies could be read, one
   * succeeded within five minutes, and the pass gets there; then it is on its claim.
   */
  lemma MovesIff(s: State, spec: Spec, api: Api)
    requires P.Inv(s, spec.database.claim) && s.postgres.On?
    ensures Pass(s, spec, api).postgres != s.postgres <==>
              && ToMove(s, spec.database) && api.database.read && api.database.listed && !EndsBeforeMoving(api)
              && exists n :: FreshCopy(s, n)
    ensures Pass(s, spec, api).postgres in {s.postgres, D.On(spec.database.claim)}
    ensures var s' := Pass(s, spec, api);
            if s'.postgres == s.postgres then s'.switchedAt == s.switchedAt && s'.copiedAt == s.copiedAt
            else s'.switchedAt == s.commits && exists n :: FreshCopy(s, n) && s'.copiedAt == s.jobs[n].purpose.began
  {
    hide CarryOut, D.PlanDatabase, FreshCopy, Switched;
    DecisionIs(s, spec.database, api.database);
    match D.PlanDatabase(spec.database, s.postgres, s.jobs, s.now, api.database)
    case Unknown =>
      FreshIsNotStale(s, spec.database);
    case Decided(plan, jobs) =>
      if !api.fault.Deferred? {
        CarryOutMovesIff(s.(jobs := jobs), spec, plan, api);
        CarryOutCounts(s.(jobs := jobs), spec, plan, api);
        FreshIsNotStale(s, spec.database);
        if plan.switching {
          var n :| FreshCopy(s, n);
          assert jobs == s.jobs;
          CountsFromTheCopy(s, jobs, spec.database, plan, n);
        }
      }
  }

  lemma FreshIsNotStale(s: State, spec: D.Spec)
    requires P.Inv(s, spec.claim)
    ensures ToMove(s, spec) && (exists n :: FreshCopy(s, n)) ==> forall n :: !StaleCopy(s, n)
  {
    if ToMove(s, spec) { OnlyOneKept(s, spec); }
  }

  lemma CarryOutMovesIff(s: State, spec: Spec, plan: D.Plan, api: Api)
    requires s.postgres.On? && !api.fault.Deferred? && (plan.switching ==> plan.volume.Some?)
    requires plan.volume.Some? && !plan.switching ==> plan.volume == Some(s.postgres.volume)
    ensures CarryOut(s, spec, plan, api).postgres ==
            if plan.switching && !EndsBeforeMoving(api) then D.On(plan.volume.value) else s.postgres
  {
    hide Finish, PlanRestore, Rendered, Copies, Newest;
    var planned := PlanRestore(s, spec, plan);
    var all := ApplyAll(Switched(s, plan), spec, plan.volume, planned.dump, api);
    P.FinishStays(all, spec, plan, planned, api);
  }

  lemma CarryOutCounts(s: State, spec: Spec, plan: D.Plan, api: Api)
    requires !api.fault.Deferred?
    ensures var s', moved := CarryOut(s, spec, plan, api), if plan.switching && !EndsBeforeMoving(api) then Switched(s, plan) else s;
            s'.copiedAt == moved.copiedAt && s'.switchedAt == moved.switchedAt
  {
    hide Finish, PlanRestore, Rendered, Switched;
    var planned := PlanRestore(s, spec, plan);
    NotSwitched(s, plan);
    P.FinishStays(ApplyAll(Switched(s, plan), spec, plan.volume, planned.dump, api), spec, plan, planned, api);
  }

  lemma NotSwitched(s: State, plan: D.Plan)
    ensures !plan.switching ==> Switched(s, plan) == s
  {
  }

  /** A switch counts from the copy it is made onto. */
  lemma CountsFromTheCopy(s: State, jobs: Table, spec: D.Spec, plan: D.Plan, n: Name)
    requires P.Inv(s, spec.claim) && ToMove(s, spec) && FreshCopy(s, n) && jobs == s.jobs
    requires plan.switching && plan.volume == Some(spec.claim)
    ensures var s' := Switched(s.(jobs := jobs), plan);
            s'.switchedAt == s.commits && s'.copiedAt == s.jobs[n].purpose.began
  {
    OnlyOneKept(s, spec);
    assert n in Copies(s.jobs, s.postgres.volume, spec.claim);
  }

  predicate NewCopy(before: Table, after: Table, m: Name) {
    m in after && m !in before && after[m].purpose.CopyJob?
  }

  /**
   * A pass begins a copy if and only if the Postgres is to move and is available, no copy of
   * it is kept but a stale one, no restore is in flight, and the pass gets to make the Job.
   */
  lemma CopyBeginsIff(s: State, spec: Spec, api: Api)
    requires P.Inv(s, spec.database.claim)
    ensures (exists m :: NewCopy(s.jobs, Pass(s, spec, api).jobs, m)) <==>
              && ToMove(s, spec.database) && !Undecidable(s, spec.database, api.database) && api.database.available
              && (forall n :: KeptCopy(s, n) ==> StaleCopy(s, n)) && R.InProgress(s.status.restore).None?
              && api.fault in {NoFault, Switch, Components, StatusWrite}
              && api.database.hook && api.database.creates && api.database.name !in s.jobs
    ensures forall m | NewCopy(s.jobs, Pass(s, spec, api).jobs, m) ::
              && m == api.database.name && s.postgres.On?
              && Pass(s, spec, api).jobs[m] == Made(CopyJob(s.postgres.volume, spec.database.claim, s.commits, Served(s)), s.now)
  {
    hide CarryOut, D.PlanDatabase, KeptCopy, StaleCopy, FreshCopy;
    DecisionIs(s, spec.database, api.database);
    match D.PlanDatabase(spec.database, s.postgres, s.jobs, s.now, api.database)
    case Unknown =>
    case Decided(plan, jobs) =>
      if !api.fault.Deferred? {
        var jobs' := Pass(s, spec, api).jobs;
        CarryOutBeginsIff(s.(jobs := jobs), spec, plan, api);
        assert forall m :: NewCopy(jobs, jobs', m) <==> NewCopy(s.jobs, jobs', m);
      }
  }

  lemma CarryOutBeginsIff(s: State, spec: Spec, plan: D.Plan, api: Api)
    requires plan.start ==> plan.copying && !plan.switching && s.postgres.On? && plan.volume == Some(s.postgres.volume)
    ensures var jobs' := CarryOut(s, spec, plan, api).jobs;
            && ((exists m :: NewCopy(s.jobs, jobs', m)) <==>
                  && plan.start && R.InProgress(s.status.restore).None? && !PR.Broken(plan, api)
                  && api.database.hook && api.database.creates && api.database.name !in s.jobs)
            && forall m | NewCopy(s.jobs, jobs', m) ::
                 m == api.database.name && s.postgres.On?
                 && jobs'[m] == Made(CopyJob(s.postgres.volume, spec.database.claim, s.commits, Served(s)), s.now)
  {
    hide CarryOut, Finish, ApplySome, R.InProgress, Rendered;
    var planned := PlanRestore(s, spec, plan);
    PR.SwitchedSame(s, plan);
    PR.ApplySame(Switched(s, plan), spec, plan.volume, planned.dump, api);
    WhileCopying(s, spec, plan);
    if PR.Broken(plan, api) {
      PR.BreaksOff(s, spec, plan, api);
    } else {
      var all := ApplyAll(Switched(s, plan), spec, plan.volume, planned.dump, api);
      PR.GoesOn(s, spec, plan, api);
      P.FinishTouches(all, spec, plan, planned, api);
      var copied, jobs' := JobsCopied(all, spec, plan, planned.dump, api), CarryOut(s, spec, plan, api).jobs;
      assert forall m :: NewCopy(s.jobs, jobs', m) <==> NewCopy(s.jobs, copied, m);
      assert plan.start ==> Served(all) == Served(s) && all.commits == s.commits && all.now == s.now;
      if plan.start && planned.dump.None? && api.database.hook && api.database.creates && api.database.name !in s.jobs {
        assert NewCopy(s.jobs, copied, api.database.name);
      }
    }
  }

  /** While it copies a pass takes up no restore. */
  lemma WhileCopying(s: State, spec: Spec, plan: D.Plan)
    ensures plan.copying ==> (PlanRestore(s, spec, plan).dump.None? <==> R.InProgress(s.status.restore).None?)
  {
  }
}
