/**
 * The self-test over every run of the platform: a pass takes its step behind everything
 * else it does, and what VerificationRuns proves of the steps holds of the passes.
 */
module PlatformVerification {
  import opened Basics
  import opened Jobs
  import opened Platform
  import P = PlatformDatabase
  import PR = PlatformRestore
  import D = Database
  import R = Restore
  import K = RealmRun
  import V = Verification
  import VR = VerificationRuns

  const OTHERS: set<Kind> := {CopyKind, RestoreKind, RealmKind}

  /** What the self-test knows of the platform. */
  ghost function View(s: State): VR.World {
    VR.World(s.now, s.jobs, s.status.verification, 0)
  }

  /** The Jobs a pass that reaches the self-test hands to it, and whether the platform is Ready. */
  ghost function Reached(s: State, spec: Spec, api: Api): Option<(Table, bool)> {
    match D.PlanDatabase(spec.database, s.postgres, s.jobs, s.now, api.database)
    case Unknown => None
    case Decided(plan, jobs) =>
      if api.fault.Deferred? || PR.Broken(plan, api) || api.fault.Components? then None
      else
        var s0 := s.(jobs := jobs);
        var planned := PlanRestore(s0, spec, plan);
        Some(Handed(ApplyAll(Switched(s0, plan), spec, plan.volume, planned.dump, api), spec, plan, planned, api))
  }

  ghost function Handed(s: State, spec: Spec, plan: D.Plan, planned: R.Planned, api: Api): (Table, bool) {
    var stepped := StepRestore(s, spec, plan, planned, api);
    var configured := ConfigureRealm(s, spec, plan, planned, stepped, api);
    (configured.jobs,
     AllReady(s.replicas, Rendered(spec, planned.dump), api) && !configured.soon && !plan.copying && !stepped.inFlight)
  }

  lemma FinishHands(s: State, spec: Spec, plan: D.Plan, planned: R.Planned, api: Api)
    requires !api.fault.Components?
    ensures var (jobs, ready) := Handed(s, spec, plan, planned, api);
            var r := V.Step(spec.verification, s.status.verification, jobs, Asked(spec), ready, s.now, api.verification);
            var s' := Finish(s, spec, plan, planned, api);
            && Touches(s.jobs, jobs, OTHERS, OTHERS)
            && s'.jobs == r.jobs && s'.status.verification == if api.fault.StatusWrite? then s.status.verification else r.status
  {
    hide R.StepRestore, K.ConfigureRealm, V.Step, JobsCopied, AllReady, Rendered, KeycloakSeen, Tally, Touches, StillScheduled;
    var copied := JobsCopied(s, spec, plan, planned.dump, api);
    var render := Rendered(spec, planned.dump);
    var stepped := StepRestore(s, spec, plan, planned, api);
    PR.CopyTouches(s, spec, plan, planned.dump, api);
    P.StepRestoreTouches(planned.restore, copied, s.pods, render, StillScheduled(s, spec, api), s.now, api.restore);
    var configured := ConfigureRealm(s, spec, plan, planned, stepped, api);
    P.ConfigureRealmTouches(spec.realm, stepped.jobs, KeycloakSeen(s.replicas, render, api),
                            plan.copying || stepped.inFlight, V.IsRunning(s.status.verification), s.now, api.realm);
    OthersTouch(s.jobs, copied, stepped.jobs, configured.jobs);
  }

  lemma OthersTouch(a: Table, b: Table, c: Table, d: Table)
    requires Touches(a, b, {CopyKind}, {CopyKind}) && Touches(b, c, {RestoreKind}, {RestoreKind, RealmKind})
    requires Touches(c, d, {RealmKind}, {RealmKind})
    ensures Touches(a, d, OTHERS, OTHERS)
  {
    hide Touches;
    TouchesTransitive(a, b, c, {CopyKind}, {CopyKind}, {RestoreKind}, {RestoreKind, RealmKind});
    TouchesTransitive(a, c, d, {CopyKind} + {RestoreKind}, {CopyKind} + {RestoreKind, RealmKind}, {RealmKind}, {RealmKind});
    TouchesMore(a, d, {CopyKind} + {RestoreKind} + {RealmKind}, {CopyKind} + {RestoreKind, RealmKind} + {RealmKind}, OTHERS, OTHERS);
  }

  /**
   * A pass is one step of the self-test on the Jobs it hands over, or leaves the self-test
   * alone; a lost status write leaves the status as it was.
   */
  lemma PassIsAStep(s: State, spec: Spec, api: Api)
    ensures var s' := Pass(s, spec, api);
            s'.now == s.now &&
            match Reached(s, spec, api)
            case None => s'.status.verification == s.status.verification && Touches(s.jobs, s'.jobs, OTHERS, OTHERS)
            case Some((jobs, ready)) =>
              var r := V.Step(spec.verification, s.status.verification, jobs, Asked(spec), ready, s.now, api.verification);
              Touches(s.jobs, jobs, OTHERS, OTHERS) && s'.jobs == r.jobs
              && s'.status.verification == if api.fault.StatusWrite? then s.status.verification else r.status
  {
    hide CarryOut, D.PlanDatabase, V.Step, Handed, ApplyAll, Switched, PlanRestore;
    P.PlanTouches(spec.database, s.postgres, s.jobs, s.now, api.database);
    match D.PlanDatabase(spec.database, s.postgres, s.jobs, s.now, api.database)
    case Unknown =>
    case Decided(plan, jobs) =>
      var s0 := s.(jobs := jobs);
      if !api.fault.Deferred? {
        CarryOutHands(s0, spec, plan, api);
      }
  }

  lemma CarryOutHands(s: State, spec: Spec, plan: D.Plan, api: Api)
    ensures var s' := CarryOut(s, spec, plan, api);
            var planned := PlanRestore(s, spec, plan);
            s'.now == s.now &&
            if PR.Broken(plan, api) || api.fault.Components? then
              s'.status.verification == s.status.verification && Touches(s.jobs, s'.jobs, OTHERS, OTHERS)
            else
              var (jobs, ready) := Handed(ApplyAll(Switched(s, plan), spec, plan.volume, planned.dump, api), spec, plan, planned, api);
              var r := V.Step(spec.verification, s.status.verification, jobs, Asked(spec), ready, s.now, api.verification);
              Touches(s.jobs, jobs, OTHERS, OTHERS) && s'.jobs == r.jobs
              && s'.status.verification == if api.fault.StatusWrite? then s.status.verification else r.status
  {
    hide CarryOut, Finish, V.Step, Handed, ApplyAll, ApplySome, Switched, PlanRestore;
    var planned := PlanRestore(s, spec, plan);
    PR.SwitchedSame(s, plan);
    PR.ApplySame(Switched(s, plan), spec, plan.volume, planned.dump, api);
    NowStays(s, spec, plan, api);
    if PR.Broken(plan, api) {
      PR.BreaksOff(s, spec, plan, api);
    } else {
      var all := ApplyAll(Switched(s, plan), spec, plan.volume, planned.dump, api);
      PR.GoesOn(s, spec, plan, api);
      if api.fault.Components? { FinishStopsShort(all, spec, plan, planned, api); } else { FinishHands(all, spec, plan, planned, api); }
    }
  }

  lemma NowStays(s: State, spec: Spec, plan: D.Plan, api: Api)
    ensures CarryOut(s, spec, plan, api).now == s.now
    ensures ApplyAll(Switched(s, plan), spec, plan.volume, PlanRestore(s, spec, plan).dump, api).now == s.now
  {
    hide Finish, PlanRestore, Rendered, Copies, Newest, Stops;
    var planned := PlanRestore(s, spec, plan);
    P.FinishStays(ApplyAll(Switched(s, plan), spec, plan.volume, planned.dump, api), spec, plan, planned, api);
  }

  lemma FinishStopsShort(s: State, spec: Spec, plan: D.Plan, planned: R.Planned, api: Api)
    requires api.fault.Components?
    ensures var s' := Finish(s, spec, plan, planned, api);
            s'.status == s.status && Touches(s.jobs, s'.jobs, OTHERS, OTHERS)
  {
    hide R.StepRestore, JobsCopied, Rendered, Tally, Touches, StillScheduled;
    var copied := JobsCopied(s, spec, plan, planned.dump, api);
    PR.CopyTouches(s, spec, plan, planned.dump, api);
    P.StepRestoreTouches(planned.restore, copied, s.pods, Rendered(spec, planned.dump), StillScheduled(s, spec, api), s.now, api.restore);
    var stepped := StepRestore(s, spec, plan, planned, api).jobs;
    SameTouches(stepped);
    OthersTouch(s.jobs, copied, stepped, stepped);
  }

  lemma SameTouches(jobs: Table)
    ensures Touches(jobs, jobs, {RealmKind}, {RealmKind})
  {
  }

  // ---- what is made ----

  /** The verification Jobs of the platform's own that have come. */
  function NewRuns(before: Table, after: Table): set<Name> {
    set n | n in after && n !in before && VR.OurRun(after[n])
  }

  ghost function RunsMade(s: State, events: seq<Event>): nat
    decreases |events|
  {
    if events == [] then 0
    else |NewRuns(s.jobs, Do(s, events[0]).jobs)| + RunsMade(Do(s, events[0]), events[1..])
  }

  /** A step makes a run exactly where the table grows. */
  lemma StepMakes(before: Table, jobs: Table, prev: Option<V.Status>, ask: V.Ask, ready: bool, now: Time, api: V.Api)
    requires Touches(before, jobs, OTHERS, OTHERS)
    ensures var jobs' := V.Step(true, prev, jobs, ask, ready, now, api).jobs;
            NewRuns(before, jobs') == if jobs.Keys < jobs'.Keys then {api.name} else {}
  {
    hide V.Collect, V.Adopt;
    var jobs' := V.Step(true, prev, jobs, ask, ready, now, api).jobs;
    assert forall n | n in jobs' && n !in jobs :: n == api.name;
    assert api.name in jobs' && api.name !in jobs ==> jobs.Keys < jobs'.Keys;
  }

  /** What other kinds of Job do leaves the self-test's in order. */
  lemma OthersTidy(w: VR.World, jobs: Table)
    requires VR.Tidy(w) && Touches(w.jobs, jobs, OTHERS, OTHERS)
    ensures VR.Tidy(w.(jobs := jobs)) && NewRuns(w.jobs, jobs) == {}
    ensures Jobs.Running(jobs, VerifyRuns(jobs)) == Jobs.Running(w.jobs, VerifyRuns(w.jobs))
  {
    assert VerifyRuns(jobs) == VerifyRuns(w.jobs);
  }

  // ---- the runs ----

  /** Verification stays enabled, each pass keeps its status, and all of them are asked the same. */
  predicate Steady(e: Event, ask: V.Ask) {
    e.Reconcile? ==>
      && e.spec.verification && e.spec.verifyRequest == ask.request && e.spec.fingerprint == ask.fingerprint
      && V.WellFormed(e.api.verification) && !e.api.fault.StatusWrite?
  }

  predicate AllSteady(events: seq<Event>, ask: V.Ask) {
    forall i | 0 <= i < |events| :: Steady(events[i], ask)
  }

  /** What one event of the platform may do to the self-test. */
  ghost predicate Settles(s: State, s': State, ask: V.Ask) {
    var made := NewRuns(s.jobs, s'.jobs);
    var v, v' := s.status.verification, s'.status.verification;
    && VR.Tidy(View(s'))
    && (VR.Settled(v, ask) ==> VR.Settled(v', ask) && made == {})
    && (made != {} ==> |made| == 1 && VR.Settled(v', ask))
    && (!V.IsRunning(v) ==> !V.IsRunning(v') || VR.Settled(v', ask))
  }

  lemma PassSettles(s: State, spec: Spec, api: Api, ask: V.Ask)
    requires VR.Tidy(View(s)) && Steady(Reconcile(spec, api), ask)
    ensures Settles(s, Pass(s, spec, api), ask)
  {
    hide Pass, Reached, V.Step, VR.Tidy, VR.Settled, Touches, NewRuns;
    PassIsAStep(s, spec, api);
    match Reached(s, spec, api)
    case None => OthersTidy(View(s), Pass(s, spec, api).jobs);
    case Some((jobs, ready)) =>
      var w := View(s).(jobs := jobs);
      OthersTidy(View(s), jobs);
      VR.EventSettles(w, VR.Pass(Asked(spec), ready, api.verification), ask);
      StepMakes(s.jobs, jobs, w.status, Asked(spec), ready, s.now, api.verification);
      TidyAside(VR.After(w, w.status, Asked(spec), ready, api.verification), View(Pass(s, spec, api)));
  }

  lemma TidyAside(w: VR.World, w': VR.World)
    requires VR.Tidy(w) && w'.jobs == w.jobs && w'.status == w.status
    ensures VR.Tidy(w')
  {
  }

  lemma EventSettles(s: State, e: Event, ask: V.Ask)
    requires VR.Tidy(View(s)) && Steady(e, ask)
    ensures Settles(s, Do(s, e), ask)
  {
    hide Pass, VR.Settled, VR.Tidy, NewRuns;
    if e.Reconcile? {
      PassSettles(s, e.spec, e.api, ask);
    } else {
      BesideMakesNone(s, e);
    }
  }

  /** What the cluster does by itself makes no run, and status goes on naming the one in flight. */
  lemma BesideMakesNone(s: State, e: Event)
    requires VR.Tidy(View(s)) && !e.Reconcile?
    ensures var s' := Do(s, e);
            VR.Tidy(View(s')) && NewRuns(s.jobs, s'.jobs) == {} && s'.status == s.status
  {
    hide Pass, JobEnds, VR.Tidy;
    if e.Ends? && e.name in s.jobs && s.jobs[e.name].outcome.Unfinished? {
      EndTidies(s, e.name, e.success, e.data);
    } else {
      FewerTidy(View(s), View(Do(s, e)));
    }
  }

  lemma EndTidies(s: State, name: Name, success: bool, data: set<nat>)
    requires VR.Tidy(View(s)) && name in s.jobs && s.jobs[name].outcome.Unfinished?
    ensures var s' := JobEnds(s, name, success, data);
            VR.Tidy(View(s')) && NewRuns(s.jobs, s'.jobs) == {} && s'.status == s.status
  {
    assert VerifyRuns(JobEnds(s, name, success, data).jobs) <= VerifyRuns(s.jobs);
  }

  lemma FewerTidy(w: VR.World, w': VR.World)
    requires VR.Tidy(w) && w'.status == w.status
    requires forall n | n in w'.jobs && VR.OurRun(w'.jobs[n]) :: n in w.jobs && w'.jobs[n] == w.jobs[n]
    ensures VR.Tidy(w')
  {
    assert VerifyRuns(w'.jobs) <= VerifyRuns(w.jobs);
  }

  /**
   * Over every run of the platform in which the same is asked: one more verification Job at
   * the most is made, and none any more once status answers what is asked.
   */
  lemma {:induction false} OneMoreAtTheMost(s: State, events: seq<Event>, ask: V.Ask)
    requires VR.Tidy(View(s)) && AllSteady(events, ask)
    ensures var s' := Run(s, events);
            var v, v' := s.status.verification, s'.status.verification;
            && VR.Tidy(View(s'))
            && RunsMade(s, events) <= (if VR.Settled(v, ask) then 0 else 1)
            && (VR.Settled(v, ask) || RunsMade(s, events) != 0 ==> VR.Settled(v', ask))
            && (!V.IsRunning(v) ==> !V.IsRunning(v') || VR.Settled(v', ask))
    decreases |events|
  {
    hide Do, VR.Tidy, VR.Settled, NewRuns;
    if events != [] {
      assert Steady(events[0], ask);
      EventSettles(s, events[0], ask);
      assert AllSteady(events[1..], ask);
      OneMoreAtTheMost(Do(s, events[0]), events[1..], ask);
    }
  }

  // ---- nothing dropped ----

  /** A pass that gets to the self-test with the platform Ready. */
  ghost predicate ReadyPass(s: State, e: Event) {
    e.Reconcile? && Reached(s, e.spec, e.api).Some? && Reached(s, e.spec, e.api).value.1
  }

  /** One that also reads the run status names, and its pod. */
  ghost predicate ReadingPass(s: State, e: Event) {
    ReadyPass(s, e) && e.api.verification.jobRead && e.api.verification.listed && e.api.verification.podsRead
  }

  /** The pass makes no other Job under the name of the run that status names. */
  ghost predicate NameKept(s: State, e: Event)
    requires ReadyPass(s, e)
  {
    var v := s.status.verification;
    V.IsRunning(v) && v.value.job.Some? && v.value.job.value in Reached(s, e.spec, e.api).value.0 ==> v.value.job.value in s.jobs
  }

  /** Once the run has ended, a pass that can read it frees the way. */
  lemma FirstPassFrees(s: State, e: Event, ask: V.Ask)
    requires VR.Tidy(View(s)) && VR.Ended(View(s)) && ReadingPass(s, e) && NameKept(s, e) && Steady(e, ask)
    ensures var v := Do(s, e).status.verification; !V.IsRunning(v) || VR.Settled(v, ask)
  {
    hide Pass, Reached, V.Step, VR.Tidy, VR.Settled, Touches, NewRuns;
    if V.IsRunning(s.status.verification) {
      PassIsAStep(s, e.spec, e.api);
      var (jobs, ready) := Reached(s, e.spec, e.api).value;
      var w := View(s).(jobs := jobs);
      OthersTidy(View(s), jobs);
      StillEnded(View(s), jobs);
      VR.CollectTidies(w, Asked(e.spec), ready, e.api.verification);
    } else {
      EventSettles(s, e, ask);
    }
  }

  lemma StillEnded(w: VR.World, jobs: Table)
    requires VR.Ended(w) && Touches(w.jobs, jobs, OTHERS, OTHERS)
    requires V.IsRunning(w.status) && w.status.value.job.Some? && w.status.value.job.value in jobs ==> w.status.value.job.value in w.jobs
    ensures VR.Ended(w.(jobs := jobs))
  {
    assert VerifyRuns(jobs) == VerifyRuns(w.jobs);
  }

  /** A Ready pass that finds something due and no run in flight takes it up. */
  lemma SecondPassTakesUp(s: State, e: Event, ask: V.Ask)
    requires VR.Tidy(View(s)) && ReadyPass(s, e) && Steady(e, ask)
    requires !V.IsRunning(s.status.verification) && !VR.Settled(s.status.verification, ask)
    ensures var s' := Do(s, e);
            var v, made := s'.status.verification, NewRuns(s.jobs, s'.jobs);
            && VR.Settled(v, ask)
            && (if v.value.result.Running? then v.value.job.Some? && made == {v.value.job.value} else v.value.result.Error? && made == {})
  {
    hide Pass, Reached, V.StartRun, VR.Tidy, Touches, NewRuns;
    PassIsAStep(s, e.spec, e.api);
    var (jobs, ready) := Reached(s, e.spec, e.api).value;
    var w := View(s).(jobs := jobs);
    OthersTidy(View(s), jobs);
    StepMakes(s.jobs, jobs, w.status, Asked(e.spec), ready, s.now, e.api.verification);
    VR.StartTidies(w, Asked(e.spec), ready, e.api.verification);
    StartNames(w, Asked(e.spec), ready, e.api.verification);
  }

  lemma StartNames(w: VR.World, ask: V.Ask, ready: bool, api: V.Api)
    requires VR.Tidy(w) && !V.IsRunning(w.status)
    ensures var r := V.Step(true, w.status, w.jobs, ask, ready, w.now, api);
            w.jobs.Keys < r.jobs.Keys ==> r.status.Some? && r.status.value.job == Some(api.name)
  {
  }

  /**
   * What was asked while a verification run was in flight is not dropped: once the run has
   * ended, the first Ready pass that can read it frees the way, and the next Ready pass,
   * whatever the platform does between, leaves it settled before, started or answered with Error.
   */
  lemma PendingIsTakenUp(s: State, first: Event, between: seq<Event>, second: Event, ask: V.Ask)
    requires VR.Tidy(View(s)) && VR.Ended(View(s)) && ReadingPass(s, first) && NameKept(s, first)
    requires ReadyPass(Run(Do(s, first), between), second)
    requires Steady(first, ask) && AllSteady(between, ask) && Steady(second, ask)
    ensures var s1 := Run(Do(s, first), between);
            var s2 := Do(s1, second);
            var v, made := s2.status.verification, NewRuns(s1.jobs, s2.jobs);
            && VR.Settled(v, ask)
            && (!VR.Settled(s1.status.verification, ask) ==>
                  if v.value.result.Running? then v.value.job.Some? && made == {v.value.job.value} else v.value.result.Error? && made == {})
  {
    hide Do, Run, VR.Tidy, VR.Ended, ReadyPass, NewRuns;
    var s0 := Do(s, first);
    var s1 := Run(s0, between);
    FirstPassFrees(s, first, ask);
    EventSettles(s, first, ask);
    OneMoreAtTheMost(s0, between, ask);
    if VR.Settled(s1.status.verification, ask) {
      EventSettles(s1, second, ask);
    } else {
      SecondPassTakesUp(s1, second, ask);
    }
  }
}
