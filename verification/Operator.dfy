/**
 * The reconcile pass as it works: reading, deciding and changing the cluster step by step.
 * Each method is proved against the part of Platform.Pass it is, so that what holds of
 * every run of passes holds of it.
 */
module Operator {
  import opened Basics
  import opened Jobs
  import P = Platform
  import D = Database
  import R = Restore
  import K = RealmRun
  import V = Verification

  /** The same answers, but for which of the deletions came through before one failed. */
  predicate SameButDeletions(api: P.Api, used: P.Api) {
    && used == api.(restore := used.restore, realm := used.realm, verification := used.verification)
    && used.restore == api.restore.(deletable := used.restore.deletable)
    && used.realm == api.realm.(deletable := used.realm.deletable)
    && used.verification == api.verification.(deletable := used.verification.deletable)
  }

  /** Of the named Jobs those given could be deleted, and these were: all of them, unless one of the named could not be. */
  predicate Came(names: set<Name>, deletable: set<Name>, came: set<Name>) {
    came <= deletable && (names <= deletable ==> came == deletable)
  }

  /** So it is of the Jobs a pass deletes, kind by kind. */
  predicate AllCame(jobs: Table, api: P.Api, used: P.Api) {
    && Came(AllRestores(jobs), api.restore.deletable, used.restore.deletable)
    && Came(RealmRuns(jobs), api.realm.deletable, used.realm.deletable)
    && Came(AllVerifyRuns(jobs), api.verification.deletable, used.verification.deletable)
  }

  lemma NothingHeld(jobs: Table, api: P.Api)
    ensures AllCame(jobs, api, api)
  {
  }

  /** Put together from the steps, `left` being the Jobs the realm's step finds. */
  lemma CameTogether(jobs: Table, left: Table, api: P.Api, restore: R.Api, realm: K.Api, verification: V.Api)
    requires Came(AllRestores(jobs), api.restore.deletable, restore.deletable)
    requires realm == api.realm || Came(RealmRuns(left), api.realm.deletable, realm.deletable)
    requires verification == api.verification || Came(AllVerifyRuns(left), api.verification.deletable, verification.deletable)
    requires RealmRuns(left) <= RealmRuns(jobs) && AllVerifyRuns(left) == AllVerifyRuns(jobs)
    ensures AllCame(jobs, api, Used(api, restore, realm, verification))
  {
    hide AllRestores, RealmRuns, AllVerifyRuns;
  }

  lemma CameFrom(jobs: Table, left: Table, api: P.Api, used: P.Api)
    requires AllRestores(left) == AllRestores(jobs) && RealmRuns(left) == RealmRuns(jobs) && AllVerifyRuns(left) == AllVerifyRuns(jobs)
    requires AllCame(left, api, used)
    ensures AllCame(jobs, api, used)
  {
  }

  /** The database's decision and the copy leave the Jobs of the other kinds. */
  lemma CopiesAside(spec: D.Spec, postgres: D.Postgres, jobs: Table, now: Time, api: D.Api)
    ensures match D.PlanDatabase(spec, postgres, jobs, now, api)
            case Unknown => true
            case Decided(_, left) =>
              AllRestores(left) == AllRestores(jobs) && RealmRuns(left) == RealmRuns(jobs) && AllVerifyRuns(left) == AllVerifyRuns(jobs)
  {
    hide Newest;
  }

  lemma CopyAside(s: P.State, spec: P.Spec, plan: D.Plan, dump: Option<string>, api: P.Api)
    ensures var left := P.JobsCopied(s, spec, plan, dump, api);
            AllRestores(left) == AllRestores(s.jobs) && RealmRuns(left) == RealmRuns(s.jobs) && AllVerifyRuns(left) == AllVerifyRuns(s.jobs)
  {
    hide P.Served;
  }

  /** The restore's step may delete realm runs, and makes none. */
  lemma RestoreAside(restore: Option<R.Status>, jobs: Table, pods: map<string, nat>, render: map<string, nat>, scheduled: bool, now: Time, api: R.Api)
    ensures var left := R.StepRestore(restore, jobs, pods, render, scheduled, now, api).jobs;
            RealmRuns(left) <= RealmRuns(jobs) && AllVerifyRuns(left) == AllVerifyRuns(jobs)
  {
    hide R.ClientsUp, R.InProgress, R.Stopped, Backups, Jobs.Running;
  }

  lemma RealmAside(hook: Option<string>, jobs: Table, keycloak: K.Keycloak, hold: bool, verifying: bool, now: Time, api: K.Api)
    ensures AllVerifyRuns(K.ConfigureRealm(hook, jobs, keycloak, hold, verifying, now, api).jobs) == AllVerifyRuns(jobs)
  {
    hide K.Latest, K.KeycloakAvailable;
  }

  lemma CameOf(names: set<Name>, deletable: set<Name>, gone: set<Name>)
    requires gone <= names * deletable && (names <= deletable ==> gone == names)
    ensures Came(names, deletable, deletable - (names - gone)) && names * (deletable - (names - gone)) == gone
    ensures names <= deletable - (names - gone) <==> gone == names
  {
  }

  lemma NewestIsFirst(jobs: Table, names: set<Name>, n: Name)
    requires names != {} && names <= jobs.Keys && n in names && forall m | m in names :: Before(jobs, n, m)
    ensures n == Newest(jobs, names)
  {
    var other := Newest(jobs, names);
    assert Before(jobs, n, other) && Before(jobs, other, n);
  }

  lemma BeforeOrders(jobs: Table, seen: set<Name>, m: Name, n: Name)
    requires seen + {m, n} <= jobs.Keys && forall x | x in seen :: Before(jobs, n, x)
    ensures if Before(jobs, m, n) then forall x | x in seen + {m} :: Before(jobs, m, x) else Before(jobs, n, m)
  {
  }

  lemma DeleteNone(jobs: Table)
    ensures Delete(jobs, {}) == jobs
  {
  }

  lemma DeleteNext(jobs: Table, gone: set<Name>, n: Name)
    requires n in jobs
    ensures n in Delete(jobs, gone)
    ensures Delete(jobs, gone + {n}) == Delete(jobs, gone)[n := Delete(jobs, gone)[n].(deleting := true)]
  {
  }

  function Unpruned(replicas: map<string, nat>, unpruned: set<string>): map<string, nat> {
    map d | d in replicas && d in unpruned :: replicas[d]
  }

  lemma WholeRender(render: map<string, nat>)
    ensures (map d | d in render && d in render.Keys :: render[d]) == render
  {
  }

  lemma IsApplyAll(s: P.State, spec: P.Spec, volume: Option<Volume>, dump: Option<string>, api: P.Api, s': P.State)
    requires s'.postgres == (if volume.Some? then D.On(volume.value) else s.postgres)
    requires s'.replicas == Unpruned(s.replicas, api.unpruned) + P.Rendered(spec, dump)
    requires s'.scheduled == (if spec.backups then !P.Stops(spec, dump) else s.scheduled && !api.cronPruned)
    requires s' == s.(postgres := s'.postgres, replicas := s'.replicas, scheduled := s'.scheduled)
    ensures s' == P.ApplyAll(s, spec, volume, dump, api)
  {
    hide P.Rendered, P.Stops;
  }

  lemma InFlightHas(restore: Option<R.Status>)
    requires R.InProgress(restore).Some?
    ensures restore.Some? && (restore.value.result.Stopping? || restore.value.result.Running?)
  {
  }

  lemma FailsTheSame(rs: R.Status, jobs: Table, now: Time, api: R.Api, deletable: set<Name>)
    ensures R.End(rs, R.Result.Failed, jobs, now, api.(deletable := deletable)) == R.End(rs, R.Result.Failed, jobs, now, api)
  {
  }

  lemma SameClients(render: map<string, nat>, pods: map<string, nat>, api: R.Api, deletable: set<Name>)
    ensures R.ClientsUp(render, pods, api.(deletable := deletable)) == R.ClientsUp(render, pods, api)
  {
  }

  lemma AllRestoresAreJobs(jobs: Table)
    ensures AllRestores(jobs) <= jobs.Keys
  {
  }

  lemma BackupsAreJobs(jobs: Table)
    ensures Backups(jobs) <= jobs.Keys
  {
  }

  lemma RealmRunsAreJobs(jobs: Table)
    ensures RealmRuns(jobs) <= jobs.Keys
  {
  }

  lemma DeletableNext(runs: set<Name>, left: set<Name>, deletable: set<Name>, n: Name)
    requires n in left && left <= runs
    ensures (runs - (left - {n})) * deletable == if n in deletable then (runs - left) * deletable + {n} else (runs - left) * deletable
  {
  }

  /** The Deployments applied once only these are left. */
  function AppliedTo(render: map<string, nat>, reached: set<string>, left: set<string>): map<string, nat> {
    map d | d in render && d in reached && d !in left :: render[d]
  }

  lemma AppliedNext(before: map<string, nat>, render: map<string, nat>, reached: set<string>, left: set<string>, d: string)
    requires d in left && left <= render.Keys * reached
    ensures before + AppliedTo(render, reached, left - {d}) == (before + AppliedTo(render, reached, left))[d := render[d]]
  {
  }

  lemma AppliedEnds(before: map<string, nat>, render: map<string, nat>, reached: set<string>)
    ensures before + AppliedTo(render, reached, render.Keys * reached) == before
    ensures AppliedTo(render, reached, {}) == map d | d in render && d in reached :: render[d]
  {
  }

  class Cluster {
    var now: Time
    var jobs: Table
    var postgres: D.Postgres
    var contents: map<Volume, set<nat>>
    var commits: nat
    var replicas: map<string, nat>
    var pods: map<string, nat>
    var scheduled: bool
    var status: P.Status
    ghost var restoreJobs: nat
    ghost var copiedAt: nat
    ghost var switchedAt: nat

    lemma StateIs()
      ensures State() == P.State(now, jobs, postgres, contents, commits, replicas, pods, scheduled, status, restoreJobs, copiedAt, switchedAt)
    {
    }

    ghost function State(): P.State
      reads this
    {
      P.State(now, jobs, postgres, contents, commits, replicas, pods, scheduled, status, restoreJobs, copiedAt, switchedAt)
    }

    /** The first of a list sorted newest first. */
    method First(names: set<Name>) returns (n: Name)
      requires names != {} && names <= jobs.Keys
      ensures n == Newest(jobs, names)
    {
      n :| n in names;
      var left := names - {n};
      while left != {}
        invariant n in names && left <= names
        invariant forall m | m in names - left :: Before(jobs, n, m)
        decreases |left|
      {
        var m :| m in left;
        BeforeOrders(jobs, names - left, m, n);
        assert names - (left - {m}) == names - left + {m};
        left := left - {m};
        if Before(jobs, m, n) { n := m; }
      }
      NewestIsFirst(jobs, names, n);
    }

    /** Deletes the listed Jobs, in whatever order they were listed, up to the first that cannot be. */
    method DeleteJobs(names: set<Name>, deletable: set<Name>) returns (ok: bool, ghost gone: set<Name>)
      requires names <= jobs.Keys
      modifies this`jobs
      ensures gone <= names * deletable && jobs == Delete(old(jobs), gone)
      ensures ok <==> names <= deletable
      ensures ok <==> gone == names
    {
      hide *;
      var left := names;
      gone := {};
      ghost var before := jobs;
      DeleteNone(before);
      while left != {}
        invariant left <= names && gone == names - left && gone <= deletable
        invariant jobs == Delete(before, gone)
        decreases |left|
      {
        var n :| n in left;
        if n !in deletable { return false, gone; }
        DeleteNext(before, gone, n);
        jobs := jobs[n := jobs[n].(deleting := true)];
        left, gone := left - {n}, gone + {n};
      }
      ok := true;
    }

    /** Creates a Job, unless the API server refuses it. */
    method Create(purpose: Purpose, creates: bool, name: Name) returns (ok: bool)
      modifies this`jobs
      ensures ok <==> creates && name !in old(jobs)
      ensures jobs == if ok then old(jobs)[name := Made(purpose, now)] else old(jobs)
    {
      ok := creates && name !in jobs;
      if ok { jobs := jobs[name := Made(purpose, now)]; }
    }

    // ---- the database ----

    /** The volume to render under the Postgres; None where it cannot be told, which ends the pass. */
    method PlanDatabase(spec: D.Spec, api: D.Api) returns (plan: Option<D.Plan>)
      modifies this`jobs
      ensures match D.PlanDatabase(spec, postgres, old(jobs), now, api)
              case Unknown => plan.None? && jobs == old(jobs)
              case Decided(p, left) => plan == Some(p) && jobs == left
    {
      if !spec.bundled { return Some(D.Plan(None, false, false, false, false)); }
      if !api.read { return None; }
      match postgres
      case Missing => plan := Some(D.Stay(spec.claim));
      case Strange => plan := None;
      case On(live) =>
        if live == spec.claim { return Some(D.Stay(spec.claim)); }
        if !spec.migrate { return Some(D.Stay(live)); }
        if !api.listed { return None; }
        var copies := Copies(jobs, live, spec.claim);
        if copies != {} {
          var latest := First(copies);
          match jobs[latest].outcome {
            case Unfinished => return Some(D.Plan(Some(live), true, false, true, false));
            case Failed(_) => return Some(D.Stay(live));
            case Complete(at) =>
              if now - at <= D.SWITCH_WINDOW { return Some(D.Plan(Some(spec.claim), false, false, true, true)); }
              if latest !in api.deletable { return None; }
              jobs := Delete(jobs, {latest});
          }
        }
        plan := Some(D.Plan(Some(live), true, api.available, true, false));
    }

    /** Moves the Postgres onto the claim a copy has just been made on. */
    method SwitchPostgres(plan: D.Plan)
      modifies this`postgres, this`copiedAt, this`switchedAt
      ensures State() == P.Switched(old(State()), plan)
      ensures postgres != old(postgres) ==> plan.switching && plan.volume.Some? && postgres == D.On(plan.volume.value)
      ensures plan.switching && plan.volume.Some? && old(postgres).On? ==> postgres == D.On(plan.volume.value)
    {
      if plan.switching && plan.volume.Some? && postgres.On? {
        ghost var copies := Copies(jobs, postgres.volume, plan.volume.value);
        switchedAt := commits;
        copiedAt := if copies == {} then commits else jobs[Newest(jobs, copies)].purpose.began;
        postgres := D.On(plan.volume.value);
      }
    }

    /** Makes the planned copy Job. */
    method StartMigration(spec: P.Spec, plan: D.Plan, dump: Option<string>, api: P.Api)
      modifies this`jobs
      ensures jobs == P.JobsCopied(old(State()), spec, plan, dump, api)
      ensures forall n | n in old(jobs) :: n in jobs && jobs[n] == old(jobs)[n]
      ensures forall n | n in jobs && n !in old(jobs) ::
                && plan.start && dump.None? && plan.volume.Some?
                && jobs[n] == Made(CopyJob(plan.volume.value, spec.database.claim, commits, P.Served(old(State()))), now)
      ensures plan.start && dump.None? && plan.volume.Some? && api.database.hook && api.database.creates && api.database.name !in old(jobs)
              ==> api.database.name in jobs
    {
      if plan.start && dump.None? && plan.volume.Some? && api.database.hook {
        var held := if postgres.On? && postgres.volume in contents then contents[postgres.volume] else {};
        var _ := Create(CopyJob(plan.volume.value, spec.database.claim, commits, held), api.database.creates, api.database.name);
      }
    }

    // ---- the apply ----

    /** Applies the render's Deployments: all of them, or those the apply reached before it broke off. */
    method ApplyDeployments(render: map<string, nat>, reached: set<string>)
      modifies this`replicas
      ensures replicas == old(replicas) + map d | d in render && d in reached :: render[d]
    {
      hide *;
      ghost var before := replicas;
      var left := render.Keys * reached;
      AppliedEnds(before, render, reached);
      while left != {}
        invariant left <= render.Keys * reached
        invariant replicas == before + AppliedTo(render, reached, left)
        decreases |left|
      {
        var d :| d in left;
        AppliedNext(before, render, reached, left, d);
        replicas := replicas[d := render[d]];
        left := left - {d};
      }
    }

    method ApplyAll(spec: P.Spec, volume: Option<Volume>, dump: Option<string>, api: P.Api)
      modifies this`postgres, this`replicas, this`scheduled
      ensures State() == P.ApplyAll(old(State()), spec, volume, dump, api)
    {
      hide P.Rendered, P.Stops, P.ApplyAll, Unpruned;
      ghost var before := State();
      var render := P.Rendered(spec, dump);
      WholeRender(render);
      if volume.Some? { postgres := D.On(volume.value); }
      replicas := Unpruned(replicas, api.unpruned);
      ApplyDeployments(render, render.Keys);
      scheduled := if spec.backups then !P.Stops(spec, dump) else scheduled && !api.cronPruned;
      IsApplyAll(before, spec, volume, dump, api, State());
    }

    method ApplySome(spec: P.Spec, volume: Option<Volume>, dump: Option<string>, api: P.Api)
      modifies this`postgres, this`replicas, this`scheduled
      ensures State() == P.ApplySome(old(State()), spec, volume, dump, api)
    {
      if volume.Some? && api.reachedPostgres { postgres := D.On(volume.value); }
      ApplyDeployments(P.Rendered(spec, dump), api.reached);
      if spec.backups && api.reachedCron { scheduled := !P.Stops(spec, dump); }
    }

    // ---- the restore ----

    /** Ends the restore; after one that succeeded, the realm's runs go, so that it is brought in step again. */
    method EndRestore(rs: R.Status, result: R.Result, api: R.Api) returns (restore: Option<R.Status>)
      modifies this`jobs
      ensures R.Stepped(restore, jobs, false) == R.End(rs, result, old(jobs), now, api)
    {
      hide Delete, RealmRuns;
      restore := Some(rs.(result := result, finishedAt := Some(now)));
      if result == R.Succeeded && api.realmListed {
        ghost var before := jobs;
        var runs := RealmRuns(jobs);
        RealmRunsAreJobs(jobs);
        var left := runs;
        DeleteNone(before);
        assert (runs - left) * api.deletable == {};
        while left != {}
          invariant left <= runs && jobs == Delete(before, (runs - left) * api.deletable)
          decreases |left|
        {
          var n :| n in left;
          DeletableNext(runs, left, api.deletable, n);
          DeleteNext(before, (runs - left) * api.deletable, n);
          if n in api.deletable { jobs := jobs[n := jobs[n].(deleting := true)]; }
          left := left - {n};
        }
        assert (runs - left) * api.deletable == runs * api.deletable;
      }
    }

    /** Once every client is down and no backup runs, the restore's Job starts; `backups` says whether one may still start later. */
    method StepStopping(rs: R.Status, dump: string, render: map<string, nat>, backups: bool, api: R.Api)
      returns (restore: Option<R.Status>, inFlight: bool, ghost used: R.Api)
      modifies this`jobs
      ensures used == api.(deletable := used.deletable) && Came(AllRestores(old(jobs)), api.deletable, used.deletable)
      ensures R.Stepped(restore, jobs, inFlight) == R.StepStopping(rs, dump, old(jobs), pods, render, backups, now, used)
    {
      hide R.ClientsUp, R.Stopped, R.End, Jobs.Running, AllRestores, Backups, Delete;
      used := api;
      restore, inFlight := Some(rs), true;
      BackupsAreJobs(jobs);
      if R.ClientsUp(render, pods, api) != {} { return; }
      if !api.backupsListed || Jobs.Running(jobs, Backups(jobs)) != {} || api.claim.Unread? { return; }
      if api.claim.Absent? || !api.hook {
        restore := EndRestore(rs, R.Refused, api);
        inFlight := false;
        return;
      }
      restore, inFlight, used := StartRestore(rs, dump, R.Stopped(render), backups, api);
      SameClients(render, pods, api, used.deletable);
    }

    /** Makes the restore Job, once all earlier ones are on their way out. */
    method StartRestore(rs: R.Status, dump: string, stopped: set<string>, backups: bool, api: R.Api)
      returns (restore: Option<R.Status>, inFlight: bool, ghost used: R.Api)
      modifies this`jobs
      ensures used == api.(deletable := used.deletable) && Came(AllRestores(old(jobs)), api.deletable, used.deletable)
      ensures var left := Delete(old(jobs), AllRestores(old(jobs)) * used.deletable);
              R.Stepped(restore, jobs, inFlight) ==
              if !(AllRestores(old(jobs)) <= used.deletable) then R.Stepped(Some(rs), left, true)
              else if !api.creates || api.name in left then R.End(rs, R.Result.Failed, left, now, used)
              else R.Stepped(Some(rs.(result := R.Running, job := Some(api.name))),
                             left[api.name := Made(RestoreJob(dump, stopped, !backups), now)], true)
    {
      hide AllRestores, Delete, R.End;
      AllRestoresAreJobs(jobs);
      restore, inFlight := Some(rs), true;
      ghost var before := jobs;
      var ok, gone := DeleteJobs(AllRestores(jobs), api.deletable);
      used := api.(deletable := api.deletable - (AllRestores(before) - gone));
      CameOf(AllRestores(before), api.deletable, gone);
      if !ok { return; }
      var created := Create(RestoreJob(dump, stopped, !backups), api.creates, api.name);
      if created {
        restore := Some(rs.(result := R.Running, job := Some(api.name)));
      } else {
        FailsTheSame(rs, jobs, now, api, used.deletable);
        restore := EndRestore(rs, R.Result.Failed, api);
        inFlight := false;
      }
    }

    /** Reads the restore's Job. */
    method StepRunning(rs: R.Status, api: R.Api) returns (restore: Option<R.Status>, inFlight: bool)
      modifies this`jobs
      ensures R.Stepped(restore, jobs, inFlight) == R.StepRunning(rs, old(jobs), now, api)
    {
      hide R.End;
      restore, inFlight := Some(rs), true;
      if rs.job.Some? && !api.jobRead { return; }
      if rs.job.None? || rs.job.value !in jobs {
        restore := EndRestore(rs, R.Result.Failed, api);
        inFlight := false;
        return;
      }
      if !api.podsRead { return; }
      match jobs[rs.job.value].outcome
      case Unfinished =>
      case Complete(_) =>
        restore := EndRestore(rs, R.Succeeded, api);
        inFlight := false;
      case Failed(_) =>
        restore := EndRestore(rs, if api.refused then R.Refused else R.Result.Failed, api);
        inFlight := false;
    }

    /** Takes the restore one step on. */
    method StepRestore(planned: Option<R.Status>, render: map<string, nat>, backups: bool, api: R.Api)
      returns (restore: Option<R.Status>, inFlight: bool, ghost used: R.Api)
      modifies this`jobs
      ensures used == api.(deletable := used.deletable) && Came(AllRestores(old(jobs)), api.deletable, used.deletable)
      ensures R.Stepped(restore, jobs, inFlight) == R.StepRestore(planned, old(jobs), pods, render, backups, now, used)
    {
      hide R.InProgress, R.StepStopping, R.StepRunning;
      used := api;
      restore, inFlight := planned, false;
      var dump := R.InProgress(planned);
      if dump.None? { return; }
      InFlightHas(planned);
      if planned.value.result.Stopping? {
        restore, inFlight, used := StepStopping(planned.value, dump.value, render, backups, api);
      } else {
        restore, inFlight := StepRunning(planned.value, api);
      }
    }

    // ---- the realm ----

    /** Starts, waits for or repeats the realm's configuration. */
    method ConfigureRealm(hook: Option<string>, keycloak: K.Keycloak, hold: bool, api: K.Api) returns (soon: bool, ghost used: K.Api)
      modifies this`jobs
      ensures used == api.(deletable := used.deletable) && Came(RealmRuns(old(jobs)), api.deletable, used.deletable)
      ensures K.Configured(jobs, soon)
           == K.ConfigureRealm(hook, old(jobs), keycloak, hold, V.IsRunning(status.verification), now, used)
    {
      used := api;
      if hook.None? { return false, api; }
      if !api.listed { return true, api; }
      var runs := RealmRuns(jobs);
      if runs != {} {
        var first := First(runs);
        var latest := jobs[first];
        match latest.outcome {
          case Unfinished => return true, api;
          case Complete(_) =>
            if latest.purpose.realmFingerprint == hook.value { return false, api; }
          case Failed(at) =>
            if latest.purpose.realmFingerprint == hook.value && now < at + K.RETRY_AFTER { return false, api; }
        }
      }
      if !K.KeycloakAvailable(keycloak) { return false, api; }
      if hold || V.IsRunning(status.verification) { return true, api; }
      var ok, gone := DeleteJobs(runs, api.deletable);
      used := api.(deletable := api.deletable - (runs - gone));
      CameOf(runs, api.deletable, gone);
      soon := true;
      if ok { var _ := Create(RealmJob(hook.value), api.creates, api.name); }
    }

    // ---- the verification ----

    /** Reads the run in flight and, once it has finished, its verdict. */
    method Collect(v: V.Status, api: V.Api) returns (r: V.Status)
      ensures r == V.Collect(v, jobs, api)
    {
      r := v;
      if v.job.Some? && !api.jobRead { return; }
      var job: Job;
      if v.job.Some? && v.job.value in jobs {
        job := jobs[v.job.value];
      } else {
        if !api.listed { return; }
        var runs := VerifyRuns(jobs);
        if runs == {} { return v.(result := V.Error); }
        var first := First(runs);
        job := jobs[first];
        r := V.Adopt(job, first, v.request);
      }
      if !api.podsRead || job.outcome.Unfinished? { return; }
      r := r.(result := api.verdict);
    }

    /** Makes a run where none is in flight, the earlier ones deleted first; otherwise status comes to follow that one. */
    method StartRun(trigger: Trigger, ask: V.Ask, lastAnswered: string, api: V.Api) returns (v: V.Status, ghost used: V.Api)
      modifies this`jobs
      ensures used == api.(deletable := used.deletable) && Came(AllVerifyRuns(old(jobs)), api.deletable, used.deletable)
      ensures (v, jobs) == V.StartRun(trigger, ask, lastAnswered, old(jobs), now, used)
    {
      hide Delete, V.Adopt;
      used := api;
      v := V.Status(V.Running, trigger, if trigger.ByRequest? then ask.request else lastAnswered, ask.fingerprint, ask.version, None);
      if !api.startListed { v := v.(result := V.Error); return; }
      var running := Jobs.Running(jobs, VerifyRuns(jobs));
      if running != {} {
        var first := First(running);
        v := V.Adopt(jobs[first], first, lastAnswered);
        return;
      }
      ghost var before := jobs;
      var ok, gone := DeleteJobs(AllVerifyRuns(jobs), api.deletable);
      used := api.(deletable := api.deletable - (AllVerifyRuns(before) - gone));
      CameOf(AllVerifyRuns(before), api.deletable, gone);
      if !ok || !api.hook || !api.account { v := v.(result := V.Error); return; }
      var purpose := VerifyJob(trigger, ask.fingerprint, ask.version, if trigger.ByRequest? then ask.request else "");
      var created := Create(purpose, api.creates, api.name);
      v := if created then v.(job := Some(api.name)) else v.(result := V.Error);
    }

    /** Reads the self-test's run and takes up what is due. */
    method Verify(enabled: bool, ask: V.Ask, ready: bool, api: V.Api) returns (v: Option<V.Status>, soon: bool, ghost used: V.Api)
      modifies this`jobs
      ensures used == api.(deletable := used.deletable) && Came(AllVerifyRuns(old(jobs)), api.deletable, used.deletable)
      ensures V.Verified(v, jobs, soon) == V.Step(enabled, status.verification, old(jobs), ask, ready, now, used)
    {
      hide Delete, V.Adopt, V.StartRun;
      used := api;
      var prev := status.verification;
      if !enabled {
        if V.IsRunning(prev) {
          ghost var before := jobs;
          AllVerifyRunsAreJobs(before);
          var _, gone := DeleteJobs(AllVerifyRuns(jobs), api.deletable);
          used := api.(deletable := api.deletable - (AllVerifyRuns(before) - gone));
          CameOf(AllVerifyRuns(before), api.deletable, gone);
        }
        return Some(V.Status(V.Skipped, NoTrigger, V.Answered(prev), "", ask.version, None)), false, used;
      }
      v := prev;
      if V.IsRunning(prev) {
        var collected := Collect(prev.value, api);
        v := Some(collected);
      }
      var trigger := V.Due(v, ask, ready);
      if trigger.NoTrigger? { return v, V.IsRunning(v), api; }
      if V.IsRunning(prev) { return v, true, api; }
      var started, ghostly := StartRun(trigger, ask, V.Answered(v), api);
      v, soon, used := Some(started), started.result.Running?, ghostly;
    }

    // ---- the pass ----

    /** What was decided about the restore, written where the pass breaks off before its apply has gone through. */
    method Note(planned: R.Planned, written: bool)
      modifies this`status, this`restoreJobs
      ensures State() == P.Noted(old(State()), planned, written)
    {
      if !written { return; }
      restoreJobs := if P.TookUp(status.restore, planned) then 0 else restoreJobs;
      status := status.(restore := planned.restore);
    }

    /** The realm's step and the verification's, and the status write. */
    method Configure(spec: P.Spec, render: map<string, nat>, hold: bool, restore: Option<R.Status>, written: bool, api: P.Api)
      returns (ready: bool, ghost configured: K.Configured, ghost verified: V.Verified, ghost realm: K.Api, ghost verification: V.Api)
      modifies this`jobs, this`status
      ensures realm == api.realm.(deletable := realm.deletable) && verification == api.verification.(deletable := verification.deletable)
      ensures Came(RealmRuns(old(jobs)), api.realm.deletable, realm.deletable)
      ensures Came(AllVerifyRuns(old(jobs)), api.verification.deletable, verification.deletable)
      ensures configured == K.ConfigureRealm(spec.realm, old(jobs), P.KeycloakSeen(replicas, render, api), hold,
                                             V.IsRunning(old(status).verification), now, realm)
      ensures ready <==> P.AllReady(replicas, render, api) && !configured.soon && !hold
      ensures verified == V.Step(spec.verification, old(status).verification, configured.jobs, P.Asked(spec), ready, now, verification)
      ensures jobs == verified.jobs && status == if written then P.Status(restore, verified.status) else old(status)
    {
      hide *;
      ghost var found := jobs;
      var keycloak := P.KeycloakSeen(replicas, render, api);
      var soon, usedRealm := ConfigureRealm(spec.realm, keycloak, hold, api.realm);
      RealmAside(spec.realm, found, keycloak, hold, V.IsRunning(status.verification), now, usedRealm);
      configured, realm := K.Configured(jobs, soon), usedRealm;
      ready := P.AllReady(replicas, render, api) && !soon && !hold;
      var v, again, usedVerification := Verify(spec.verification, P.Asked(spec), ready, api.verification);
      verified, verification := V.Verified(v, jobs, again), usedVerification;
      if written { status := P.Status(restore, v); }
    }

    /** The copy the pass may start, and the restore's step. */
    method CopyAndRestore(spec: P.Spec, plan: D.Plan, planned: R.Planned, render: map<string, nat>, written: bool, api: P.Api)
      returns (restore: Option<R.Status>, inFlight: bool, ghost copied: Table, ghost used: R.Api)
      requires render == P.Rendered(spec, planned.dump)
      modifies this`jobs, this`restoreJobs, this`scheduled
      ensures used == api.restore.(deletable := used.deletable) && Came(AllRestores(old(jobs)), api.restore.deletable, used.deletable)
      ensures RealmRuns(jobs) <= RealmRuns(old(jobs)) && AllVerifyRuns(jobs) == AllVerifyRuns(old(jobs))
      ensures copied == P.JobsCopied(old(State()), spec, plan, planned.dump, api)
      ensures R.Stepped(restore, jobs, inFlight) == R.StepRestore(planned.restore, copied, pods, render, scheduled, now, used)
      ensures scheduled == P.StillScheduled(old(State()), spec, api)
      ensures restoreJobs == P.Tally(old(State()), planned, R.Stepped(restore, jobs, inFlight), copied, written)
    {
      hide *;
      StateIs();
      ghost var before := State();
      StartMigration(spec, plan, planned.dump, api);
      copied := jobs;
      CopyAside(before, spec, plan, planned.dump, api);
      var backups := scheduled && (spec.backups || !api.cronRemoved);
      IsStillScheduled(before, spec, api);
      restore, inFlight, used := StepRestore(planned.restore, render, backups, api.restore);
      RestoreAside(planned.restore, copied, pods, render, backups, now, used);
      restoreJobs := P.Tally(before, planned, R.Stepped(restore, jobs, inFlight), copied, written);
      scheduled := backups;
    }

    /** The pass after its apply. */
    method Finish(spec: P.Spec, plan: D.Plan, planned: R.Planned, api: P.Api) returns (ghost used: P.Api)
      modifies this
      ensures SameButDeletions(api, used) && AllCame(old(jobs), api, used)
      ensures State() == P.Finish(old(State()), spec, plan, planned, used)
    {
      hide *;
      StateIs();
      ghost var before := State();
      var render := P.Rendered(spec, planned.dump);
      var written := !api.fault.Components? && !api.fault.StatusWrite?;
      var restore, inFlight, copied, usedRestore := CopyAndRestore(spec, plan, planned, render, written, api);
      ghost var stepped := R.Stepped(restore, jobs, inFlight);
      ghost var found := jobs;
      if api.fault.Components? {
        used := Used(api, usedRestore, api.realm, api.verification);
        CameTogether(before.jobs, found, api, usedRestore, api.realm, api.verification);
        StateIs();
        BreaksOff(before, spec, plan, planned, api, usedRestore, copied, stepped, State());
        return;
      }
      var hold := plan.copying || inFlight;
      var ready, configured, verified, usedRealm, usedVerification := Configure(spec, render, hold, restore, written, api);
      used := Used(api, usedRestore, usedRealm, usedVerification);
      CameTogether(before.jobs, found, api, usedRestore, usedRealm, usedVerification);
      StateIs();
      GoesThrough(before, spec, plan, planned, api, usedRestore, usedRealm, usedVerification, copied, stepped, hold, configured, ready, verified, State());
    }

    /** One reconcile pass. */
    method Reconcile(spec: P.Spec, api: P.Api) returns (ghost used: P.Api)
      modifies this
      ensures SameButDeletions(api, used) && AllCame(old(jobs), api, used)
      ensures State() == P.Pass(old(State()), spec, used)
    {
      hide P.Finish, P.ApplyAll, P.ApplySome, P.Switched, P.Noted, P.CarryOut, D.PlanDatabase, R.PlanRestore, P.Pass,
           SameButDeletions, AllCame, AllRestores, RealmRuns, AllVerifyRuns;
      used := api;
      SameAnswers(api);
      NothingHeld(jobs, api);
      ghost var before := State();
      PassIs(before, spec, api);
      if api.fault.Deferred? { return; }
      var decided := PlanDatabase(spec.database, api.database);
      if decided.None? { return; }
      var plan := decided.value;
      ghost var left := State();
      assert left == before.(jobs := jobs);
      CopiesAside(spec.database, before.postgres, before.jobs, before.now, api.database);
      CarryOutIs(left, spec, plan, api);
      var planned := R.PlanRestore(spec.database.bundled, spec.restoreRequest, status.restore, plan.copying, now);
      if api.fault.Certificate? { return; }
      if api.fault.Render? || api.fault.Secrets? || (plan.switching && api.fault.Switch?) {
        Note(planned, api.noted);
        return;
      }
      SwitchPostgres(plan);
      if api.fault.Apply? {
        ApplySome(spec, plan.volume, planned.dump, api);
        Note(planned, api.noted);
        return;
      }
      ApplyAll(spec, plan.volume, planned.dump, api);
      used := Finish(spec, plan, planned, api);
      CameFrom(before.jobs, left.jobs, api, used);
      SameElsewhere(api, used);
      PassIs(before, spec, used);
      CarryOutIs(left, spec, plan, used);
      AppliesTheSame(P.Switched(left, plan), spec, plan.volume, planned.dump, api, used);
    }
  }

  lemma SameAnswers(api: P.Api)
    ensures SameButDeletions(api, api)
  {
  }

  lemma SameElsewhere(api: P.Api, used: P.Api)
    requires SameButDeletions(api, used)
    ensures used.fault == api.fault && used.database == api.database
  {
  }

  lemma PassIs(s: P.State, spec: P.Spec, api: P.Api)
    ensures P.Pass(s, spec, api) ==
            if api.fault.Deferred? then s
            else match D.PlanDatabase(spec.database, s.postgres, s.jobs, s.now, api.database)
              case Unknown => s
              case Decided(plan, jobs) => P.CarryOut(s.(jobs := jobs), spec, plan, api)
  {
    hide P.CarryOut, D.PlanDatabase;
  }

  lemma CarryOutIs(s: P.State, spec: P.Spec, plan: D.Plan, api: P.Api)
    ensures var planned := R.PlanRestore(spec.database.bundled, spec.restoreRequest, s.status.restore, plan.copying, s.now);
            P.CarryOut(s, spec, plan, api) ==
            if api.fault.Certificate? then s
            else if api.fault.Render? || api.fault.Secrets? || (plan.switching && api.fault.Switch?) then P.Noted(s, planned, api.noted)
            else if api.fault.Apply? then P.Noted(P.ApplySome(P.Switched(s, plan), spec, plan.volume, planned.dump, api), planned, api.noted)
            else P.Finish(P.ApplyAll(P.Switched(s, plan), spec, plan.volume, planned.dump, api), spec, plan, planned, api)
  {
    hide P.Finish, P.ApplyAll, P.ApplySome, P.Switched, P.Noted, R.PlanRestore;
  }

  /** The answers with the deletions that came through. */
  function Used(api: P.Api, restore: R.Api, realm: K.Api, verification: V.Api): P.Api {
    api.(restore := restore, realm := realm, verification := verification)
  }

  lemma IsStillScheduled(s: P.State, spec: P.Spec, api: P.Api)
    ensures P.StillScheduled(s, spec, api) == (s.scheduled && (spec.backups || !api.cronRemoved))
  {
  }

  lemma UsedSame(api: P.Api, restore: R.Api, realm: K.Api, verification: V.Api)
    requires restore == api.restore.(deletable := restore.deletable) && realm == api.realm.(deletable := realm.deletable)
    requires verification == api.verification.(deletable := verification.deletable)
    ensures SameButDeletions(api, Used(api, restore, realm, verification))
  {
  }

  /** A pass that breaks off at its components has taken its restore's step. */
  lemma BreaksOff(s: P.State, spec: P.Spec, plan: D.Plan, planned: R.Planned, api: P.Api, restore: R.Api,
                  copied: Table, stepped: R.Stepped, s': P.State)
    requires restore == api.restore.(deletable := restore.deletable) && api.fault.Components?
    requires copied == P.JobsCopied(s, spec, plan, planned.dump, api)
    requires stepped == R.StepRestore(planned.restore, copied, s.pods, P.Rendered(spec, planned.dump), s'.scheduled, s.now, restore)
    requires s'.jobs == stepped.jobs && s'.scheduled == P.StillScheduled(s, spec, api)
    requires s'.restoreJobs == P.Tally(s, planned, stepped, copied, false)
    requires s' == s.(jobs := s'.jobs, scheduled := s'.scheduled, restoreJobs := s'.restoreJobs)
    ensures SameButDeletions(api, Used(api, restore, api.realm, api.verification))
    ensures s' == P.Finish(s, spec, plan, planned, Used(api, restore, api.realm, api.verification))
  {
    hide R.StepRestore, P.Rendered, P.Tally, D.StartCopy;
  }

  lemma GoesThrough(s: P.State, spec: P.Spec, plan: D.Plan, planned: R.Planned, api: P.Api,
                    restore: R.Api, realm: K.Api, verification: V.Api, copied: Table, stepped: R.Stepped,
                    hold: bool, configured: K.Configured, ready: bool, verified: V.Verified, s': P.State)
    requires restore == api.restore.(deletable := restore.deletable) && realm == api.realm.(deletable := realm.deletable)
    requires verification == api.verification.(deletable := verification.deletable) && !api.fault.Components?
    requires copied == P.JobsCopied(s, spec, plan, planned.dump, api)
    requires stepped == R.StepRestore(planned.restore, copied, s.pods, P.Rendered(spec, planned.dump), s'.scheduled, s.now, restore)
    requires hold <==> plan.copying || stepped.inFlight
    requires configured == K.ConfigureRealm(spec.realm, stepped.jobs, P.KeycloakSeen(s.replicas, P.Rendered(spec, planned.dump), api),
                                            hold, V.IsRunning(s.status.verification), s.now, realm)
    requires ready <==> P.AllReady(s.replicas, P.Rendered(spec, planned.dump), api) && !configured.soon && !hold
    requires verified == V.Step(spec.verification, s.status.verification, configured.jobs, P.Asked(spec), ready, s.now, verification)
    requires s'.jobs == verified.jobs && s'.scheduled == P.StillScheduled(s, spec, api)
    requires s'.restoreJobs == P.Tally(s, planned, stepped, copied, !api.fault.StatusWrite?)
    requires s'.status == if api.fault.StatusWrite? then s.status else P.Status(stepped.restore, verified.status)
    requires s' == s.(jobs := s'.jobs, scheduled := s'.scheduled, restoreJobs := s'.restoreJobs, status := s'.status)
    ensures SameButDeletions(api, Used(api, restore, realm, verification))
    ensures s' == P.Finish(s, spec, plan, planned, Used(api, restore, realm, verification))
  {
    hide R.StepRestore, K.ConfigureRealm, V.Step, P.Rendered, P.Tally, D.StartCopy, P.KeycloakSeen, P.AllReady;
    UsedSame(api, restore, realm, verification);
    SeenTheSame(s, P.Rendered(spec, planned.dump), api, Used(api, restore, realm, verification));
  }

  lemma AllVerifyRunsAreJobs(jobs: Table)
    ensures AllVerifyRuns(jobs) <= jobs.Keys
  {
  }

  /** Which deletions came through changes nothing else a pass reads. */
  lemma SeenTheSame(s: P.State, render: map<string, nat>, api: P.Api, used: P.Api)
    requires SameButDeletions(api, used)
    ensures P.AllReady(s.replicas, render, used) <==> P.AllReady(s.replicas, render, api)
    ensures P.KeycloakSeen(s.replicas, render, used) == P.KeycloakSeen(s.replicas, render, api)
  {
  }

  lemma AppliesTheSame(s: P.State, spec: P.Spec, volume: Option<Volume>, dump: Option<string>, api: P.Api, used: P.Api)
    requires SameButDeletions(api, used)
    ensures P.ApplyAll(s, spec, volume, dump, used) == P.ApplyAll(s, spec, volume, dump, api)
  {
    hide P.Rendered;
  }
}
