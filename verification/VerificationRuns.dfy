/**
 * Verification over every run, while it stays enabled: one Job at a time whatever status a
 * pass has read, and one Job for each thing asked when status is kept.
 */
module VerificationRuns {
  import opened Basics
  import opened Jobs
  import V = Verification

  /** `made` counts the verification Jobs made so far. */
  datatype World = World(now: Time, jobs: Table, status: Option<V.Status>, made: nat)

  /** A pass works from the status kept, or — Stale — from any it may have read. */
  datatype Event =
    | Pass(ask: V.Ask, ready: bool, api: V.Api)
    | Stale(prev: Option<V.Status>, staleAsk: V.Ask, staleReady: bool, staleApi: V.Api)
    | Ends(name: Name, success: bool)
    | Gone(name: Name)
    | Tick(seconds: nat)
    | Beside(name: Name, job: Job)

  ghost function After(w: World, prev: Option<V.Status>, ask: V.Ask, ready: bool, api: V.Api): World {
    var r := V.Step(true, prev, w.jobs, ask, ready, w.now, api);
    w.(jobs := r.jobs, status := r.status, made := w.made + if w.jobs.Keys < r.jobs.Keys then 1 else 0)
  }

  ghost function Do(w: World, e: Event): World {
    match e
    case Pass(ask, ready, api) => After(w, w.status, ask, ready, api)
    case Stale(prev, ask, ready, api) => After(w, prev, ask, ready, api)
    case Ends(n, success) =>
      if n in w.jobs && w.jobs[n].outcome.Unfinished?
      then w.(jobs := w.jobs[n := w.jobs[n].(outcome := if success then Complete(w.now) else Failed(w.now))])
      else w
    case Gone(n) =>
      if n in w.jobs && (w.jobs[n].deleting || !w.jobs[n].outcome.Unfinished?)
      then w.(jobs := w.jobs - {n}) else w
    case Tick(seconds) => w.(now := w.now + seconds)
    case Beside(n, job) =>
      if n !in w.jobs && !OurRun(job) then w.(jobs := w.jobs[n := job]) else w
  }

  ghost function Run(w: World, events: seq<Event>): World
    decreases |events|
  {
    if events == [] then w else Run(Do(w, events[0]), events[1..])
  }

  predicate OurRun(j: Job) {
    j.ours && j.purpose.VerifyJob?
  }

  // ---- one run at a time ----

  /** One Job at the most that is not being deleted, and none cut short. */
  ghost predicate OneRun(jobs: Table) {
    && (forall n, m | n in VerifyRuns(jobs) && m in VerifyRuns(jobs) :: n == m)
    && (forall n | n in jobs && OurRun(jobs[n]) && jobs[n].deleting :: !jobs[n].outcome.Unfinished?)
  }

  /**
   * Whatever status a pass starts from: the run in flight stays as it is, no other comes
   * beside it, and a status that comes to name it says what its own Job says.
   */
  lemma StepKeepsOneRun(prev: Option<V.Status>, jobs: Table, ask: V.Ask, ready: bool, now: Time, api: V.Api)
    requires OneRun(jobs)
    ensures var r := V.Step(true, prev, jobs, ask, ready, now, api);
            && OneRun(r.jobs)
            && forall n | n in jobs && InFlight(jobs[n]) && jobs[n].purpose.VerifyJob? ::
                 && r.jobs == jobs
                 && (r.status.Some? && r.status.value.job == Some(n) && !(prev.Some? && prev.value.job == Some(n)) ==>
                       r.status == Some(V.Adopt(jobs[n], n, V.Answered(prev))))
  {
    if n :| n in jobs && InFlight(jobs[n]) && jobs[n].purpose.VerifyJob? {
      assert n in VerifyRuns(jobs);
      assert VerifyRuns(jobs) == {n};
      assert Jobs.Running(jobs, VerifyRuns(jobs)) == {n};
    } else {
      assert Jobs.Running(jobs, VerifyRuns(jobs)) == {};
      StartKeepsOneRun(prev, jobs, ask, ready, now, api);
    }
  }

  lemma StartKeepsOneRun(prev: Option<V.Status>, jobs: Table, ask: V.Ask, ready: bool, now: Time, api: V.Api)
    requires OneRun(jobs) && Jobs.Running(jobs, VerifyRuns(jobs)) == {}
    ensures OneRun(V.Step(true, prev, jobs, ask, ready, now, api).jobs)
  {
    hide V.Collect;
    assert forall n | n in jobs && OurRun(jobs[n]) :: n in VerifyRuns(jobs) || jobs[n].deleting;
    forall n | n in jobs && OurRun(jobs[n])
      ensures !jobs[n].outcome.Unfinished?
    {
      assert n !in Jobs.Running(jobs, VerifyRuns(jobs));
    }
  }

  lemma EventKeepsOneRun(w: World, e: Event)
    requires OneRun(w.jobs)
    ensures OneRun(Do(w, e).jobs)
  {
    hide V.Step;
    match e
    case Pass(ask, ready, api) => StepKeepsOneRun(w.status, w.jobs, ask, ready, w.now, api);
    case Stale(prev, ask, ready, api) => StepKeepsOneRun(prev, w.jobs, ask, ready, w.now, api);
    case _ => assert VerifyRuns(Do(w, e).jobs) <= VerifyRuns(w.jobs);
  }

  /** In every run, from whatever statuses the passes read. */
  lemma {:induction false} OneRunAtATime(w: World, events: seq<Event>)
    requires OneRun(w.jobs)
    ensures OneRun(Run(w, events).jobs)
    decreases |events|
  {
    hide Do, OneRun;
    if events != [] {
      EventKeepsOneRun(w, events[0]);
      OneRunAtATime(Do(w, events[0]), events[1..]);
    }
  }

  lemma EventLeavesAlone(w: World, e: Event, n: Name)
    requires OneRun(w.jobs) && n in w.jobs && InFlight(w.jobs[n]) && w.jobs[n].purpose.VerifyJob?
    requires !(e.Ends? && e.name == n)
    ensures var w' := Do(w, e); n in w'.jobs && w'.jobs[n] == w.jobs[n] && w'.made == w.made
  {
    hide V.Step;
    match e
    case Pass(ask, ready, api) => StepKeepsOneRun(w.status, w.jobs, ask, ready, w.now, api);
    case Stale(prev, ask, ready, api) => StepKeepsOneRun(prev, w.jobs, ask, ready, w.now, api);
    case _ =>
  }

  /** Until it ends by itself, a run in flight is neither deleted nor replaced, and none is made beside it. */
  lemma {:induction false} RunInFlightIsLeftAlone(w: World, events: seq<Event>, n: Name)
    requires OneRun(w.jobs) && n in w.jobs && InFlight(w.jobs[n]) && w.jobs[n].purpose.VerifyJob?
    requires forall i | 0 <= i < |events| :: !(events[i].Ends? && events[i].name == n)
    ensures var w' := Run(w, events); n in w'.jobs && w'.jobs[n] == w.jobs[n] && w'.made == w.made
    decreases |events|
  {
    hide Do, OneRun;
    if events != [] {
      EventLeavesAlone(w, events[0], n);
      EventKeepsOneRun(w, events[0]);
      RunInFlightIsLeftAlone(Do(w, events[0]), events[1..], n);
    }
  }

  // ---- nothing dropped, nothing repeated ----

  /** Status names the run in flight, and no other run is kept beside it. */
  ghost predicate Tidy(w: World) {
    if V.IsRunning(w.status) then w.status.value.job.Some? && VerifyRuns(w.jobs) <= {w.status.value.job.value}
    else Jobs.Running(w.jobs, VerifyRuns(w.jobs)) == {}
  }

  /** Nothing asks for another run: this platform has been verified, this request answered. */
  predicate Settled(v: Option<V.Status>, ask: V.Ask) {
    v.Some? && v.value.fingerprint == ask.fingerprint && (ask.request == "" || v.value.request == ask.request)
  }

  /** Each pass keeps status, and all of them are asked the same. */
  predicate Steady(e: Event, ask: V.Ask) {
    !e.Stale? && (e.Pass? ==> e.ask.request == ask.request && e.ask.fingerprint == ask.fingerprint && V.WellFormed(e.api))
  }

  predicate AllSteady(events: seq<Event>, ask: V.Ask) {
    forall i | 0 <= i < |events| :: Steady(events[i], ask)
  }

  /** No run is in flight any more, nor is the Job that status names, if it is still there. */
  ghost predicate Ended(w: World) {
    && Jobs.Running(w.jobs, VerifyRuns(w.jobs)) == {}
    && (V.IsRunning(w.status) && w.status.value.job.Some? && w.status.value.job.value in w.jobs ==>
          !w.jobs[w.status.value.job.value].outcome.Unfinished?)
  }

  lemma CollectKeeps(w: World, api: V.Api)
    requires Tidy(w) && V.IsRunning(w.status) && V.WellFormed(api)
    ensures var v := V.Collect(w.status.value, w.jobs, api);
            && v.(result := V.Running) == w.status.value
            && (!v.result.Running? ==> Jobs.Running(w.jobs, VerifyRuns(w.jobs)) == {})
  {
  }

  /** A pass that takes up what is due starts a run or answers with Error. */
  lemma StartTidies(w: World, ask: V.Ask, ready: bool, api: V.Api)
    requires Tidy(w) && !V.IsRunning(w.status) && !V.Due(w.status, ask, ready).NoTrigger?
    ensures var w' := After(w, w.status, ask, ready, api);
            && Tidy(w') && Settled(w'.status, ask)
            && (if w'.status.value.result.Running? then w'.made == w.made + 1 && w'.status.value.job.Some?
                else w'.status.value.result.Error? && w'.made == w.made)
  {
    hide V.Collect;
    var left := Delete(w.jobs, AllVerifyRuns(w.jobs) * api.deletable);
    assert Jobs.Running(left, VerifyRuns(left)) <= Jobs.Running(w.jobs, VerifyRuns(w.jobs));
    var w' := After(w, w.status, ask, ready, api);
    if w'.status.value.result.Running? {
      assert api.name !in w.jobs && api.name in w'.jobs;
      assert forall n | n in VerifyRuns(w'.jobs) :: n == api.name || n in AllVerifyRuns(w.jobs);
    }
  }

  /** A pass that reads the run in flight makes nothing, and keeps what the run answers. */
  lemma CollectTidies(w: World, ask: V.Ask, ready: bool, api: V.Api)
    requires Tidy(w) && V.IsRunning(w.status) && V.WellFormed(api)
    ensures var w' := After(w, w.status, ask, ready, api);
            && Tidy(w') && w'.made == w.made && w'.jobs == w.jobs
            && w'.status.Some? && w'.status.value.(result := V.Running) == w.status.value
            && (api.jobRead && api.listed && api.podsRead && Ended(w) ==> !V.IsRunning(w'.status))
  {
    CollectKeeps(w, api);
  }

  /** Between passes nothing is made, and status still names the run in flight. */
  lemma BesideKeeps(w: World, e: Event)
    requires Tidy(w) && !e.Pass? && !e.Stale?
    ensures Tidy(Do(w, e)) && Do(w, e).made == w.made && Do(w, e).status == w.status
    ensures Jobs.Running(Do(w, e).jobs, VerifyRuns(Do(w, e).jobs)) <= Jobs.Running(w.jobs, VerifyRuns(w.jobs))
  {
    hide V.Step;
    assert VerifyRuns(Do(w, e).jobs) <= VerifyRuns(w.jobs);
  }

  /** One event, all asking the same: what is settled stays so, and what is made settles. */
  lemma EventSettles(w: World, e: Event, ask: V.Ask)
    requires Tidy(w) && Steady(e, ask)
    ensures var w' := Do(w, e);
            && Tidy(w')
            && (Settled(w.status, ask) ==> Settled(w'.status, ask) && w'.made == w.made)
            && (w'.made != w.made ==> w'.made == w.made + 1 && Settled(w'.status, ask))
            && (!V.IsRunning(w.status) ==> !V.IsRunning(w'.status) || Settled(w'.status, ask))
  {
    hide V.Step;
    if e.Pass? {
      if V.IsRunning(w.status) {
        CollectTidies(w, e.ask, e.ready, e.api);
      } else if V.Due(w.status, e.ask, e.ready).NoTrigger? {
        IdleKeeps(w, e.ask, e.ready, e.api);
      } else {
        StartTidies(w, e.ask, e.ready, e.api);
      }
    } else {
      BesideKeeps(w, e);
    }
  }

  /** Status is kept in order in every run in which each pass has it kept. */
  lemma {:induction false} TidyThroughout(w: World, events: seq<Event>)
    requires Tidy(w)
    requires forall i | 0 <= i < |events| :: !events[i].Stale? && (events[i].Pass? ==> V.WellFormed(events[i].api))
    ensures Tidy(Run(w, events))
    decreases |events|
  {
    hide Do, Tidy;
    if events != [] {
      EventSettles(w, events[0], if events[0].Pass? then events[0].ask else V.Ask("", "", ""));
      TidyThroughout(Do(w, events[0]), events[1..]);
    }
  }

  lemma IdleKeeps(w: World, ask: V.Ask, ready: bool, api: V.Api)
    requires !V.IsRunning(w.status) && V.Due(w.status, ask, ready).NoTrigger?
    ensures After(w, w.status, ask, ready, api) == w
    ensures ready ==> Settled(w.status, ask)
  {
  }

  /**
   * While the same is asked, whatever the verdicts: one more Job at the most is made, and
   * none any more once status answers what is asked.
   */
  lemma {:induction false} OneMoreAtTheMost(w: World, events: seq<Event>, ask: V.Ask)
    requires Tidy(w) && AllSteady(events, ask)
    ensures var w' := Run(w, events);
            && Tidy(w')
            && w'.made <= w.made + (if Settled(w.status, ask) then 0 else 1)
            && (Settled(w.status, ask) || w'.made != w.made ==> Settled(w'.status, ask))
            && (!V.IsRunning(w.status) ==> !V.IsRunning(w'.status) || Settled(w'.status, ask))
    decreases |events|
  {
    hide Do, Tidy, Settled;
    if events != [] {
      assert Steady(events[0], ask);
      EventSettles(w, events[0], ask);
      assert AllSteady(events[1..], ask);
      OneMoreAtTheMost(Do(w, events[0]), events[1..], ask);
    }
  }

  /**
   * What was asked while a run was in flight is not dropped: once the run has ended, the
   * first Ready pass that can read it frees the way, and the next Ready pass, whatever
   * comes between, leaves it answered: settled before, started now, or answered with Error.
   */
  lemma PendingIsTakenUp(w: World, first: Event, between: seq<Event>, second: Event, ask: V.Ask)
    requires Tidy(w) && Ended(w)
    requires first.Pass? && first.ready && first.api.jobRead && first.api.listed && first.api.podsRead
    requires second.Pass? && second.ready
    requires Steady(first, ask) && AllSteady(between, ask) && Steady(second, ask)
    ensures var w1 := Run(Do(w, first), between);
            var w2 := Do(w1, second);
            && Settled(w2.status, ask)
            && (!Settled(w1.status, ask) ==>
                  if w2.status.value.result.Running? then w2.made == w1.made + 1 && w2.status.value.job.Some?
                  else w2.status.value.result.Error? && w2.made == w1.made)
  {
    hide Run, V.Step, Tidy;
    var w1 := Run(Do(w, first), between);
    EventSettles(w, first, ask);
    if V.IsRunning(w.status) { CollectTidies(w, first.ask, first.ready, first.api); }
    OneMoreAtTheMost(Do(w, first), between, ask);
    EventSettles(w1, second, ask);
    if !Settled(w1.status, ask) {
      if V.Due(w1.status, second.ask, true).NoTrigger? {
        IdleKeeps(w1, second.ask, true, second.api);
      } else {
        StartTidies(w1, second.ask, true, second.api);
      }
    }
  }
}
