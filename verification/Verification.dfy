/**
 * The platform's self-test: one verification Job at a time, nothing dropped.
 */
module Verification {
  import opened Basics
  import opened Jobs

  datatype Result = Running | Passed | Failed | Error | Skipped

  /** status.verification: what decides the next step, the report left out. */
  datatype Status = Status(result: Result, trigger: Trigger, request: string,
                           fingerprint: string, version: string, job: Option<Name>)

  /** How the API server answers this pass; `verdict` is what the run's report says. */
  datatype Api = Api(jobRead: bool, listed: bool, podsRead: bool, verdict: Result, startListed: bool,
                     deletable: set<Name>, hook: bool, account: bool, creates: bool, name: Name)

  predicate WellFormed(api: Api) {
    api.verdict in {Passed, Result.Failed, Error}
  }

  /** What one pass knows: the request asked for, the rendered fingerprint and the version. */
  datatype Ask = Ask(request: string, fingerprint: string, version: string)

  function Answered(v: Option<Status>): string {
    if v.None? then "" else v.value.request
  }

  predicate IsRunning(v: Option<Status>) {
    v.Some? && v.value.result.Running?
  }

  /** What a Job's annotations tell of its run. */
  function Adopt(job: Job, name: Name, lastAnswered: string): Status
    requires job.purpose.VerifyJob?
  {
    var p := job.purpose;
    Status(Running, p.trigger,
           if p.trigger.ByRequest? && p.request != "" then p.request else lastAnswered,
           p.fingerprint, p.version, Some(name))
  }

  /** Reads the run in flight and, once it has finished, its verdict. */
  ghost function Collect(v: Status, jobs: Table, api: Api): Status {
    if v.job.Some? && !api.jobRead then v
    else if v.job.Some? && v.job.value in jobs then Read(v, jobs[v.job.value], api)
    else if !api.listed then v
    else if VerifyRuns(jobs) == {} then v.(result := Error)
    else
      var latest := Newest(jobs, VerifyRuns(jobs));
      Read(Adopt(jobs[latest], latest, v.request), jobs[latest], api)
  }

  function Read(v: Status, job: Job, api: Api): Status {
    if !api.podsRead || job.outcome.Unfinished? then v else v.(result := api.verdict)
  }

  datatype Verified = Verified(status: Option<Status>, jobs: Table, soon: bool)

  /** Makes a run in place of the earlier ones, or follows the one that is still going. */
  ghost function StartRun(trigger: Trigger, ask: Ask, lastAnswered: string, jobs: Table, now: Time, api: Api): (Status, Table) {
    var v := Status(Running, trigger, if trigger.ByRequest? then ask.request else lastAnswered,
                    ask.fingerprint, ask.version, None);
    var failed := v.(result := Error);
    var running := Jobs.Running(jobs, VerifyRuns(jobs));
    if !api.startListed then (failed, jobs)
    else if running != {} then
      var first := Newest(jobs, running);
      (Adopt(jobs[first], first, lastAnswered), jobs)
    else
      var left := Delete(jobs, AllVerifyRuns(jobs) * api.deletable);
      if !(AllVerifyRuns(jobs) <= api.deletable) || !api.hook || !api.account || !api.creates || api.name in left
      then (failed, left)
      else
        var purpose := VerifyJob(trigger, ask.fingerprint, ask.version, if trigger.ByRequest? then ask.request else "");
        (v.(job := Some(api.name)), left[api.name := Made(purpose, now)])
  }

  /** What asks for a run now; nothing does before the platform is Ready. */
  function Due(v: Option<Status>, ask: Ask, ready: bool): Trigger {
    if !ready then NoTrigger
    else if ask.request != "" && ask.request != Answered(v) then ByRequest
    else if v.None? || v.value.fingerprint != ask.fingerprint then ByUpdate
    else NoTrigger
  }

  /** One step of the self-test, `prev` being the status it was read with. */
  ghost function Step(enabled: bool, prev: Option<Status>, jobs: Table, ask: Ask, ready: bool, now: Time, api: Api): Verified {
    if !enabled then
      var left := if IsRunning(prev) then Delete(jobs, AllVerifyRuns(jobs) * api.deletable) else jobs;
      Verified(Some(Status(Skipped, NoTrigger, Answered(prev), "", ask.version, None)), left, false)
    else
      var v := if IsRunning(prev) then Some(Collect(prev.value, jobs, api)) else prev;
      var trigger := Due(v, ask, ready);
      if trigger.NoTrigger? then Verified(v, jobs, IsRunning(v))
      else if IsRunning(prev) then Verified(v, jobs, true)
      else
        var (started, left) := StartRun(trigger, ask, Answered(v), jobs, now, api);
        Verified(Some(started), left, started.result.Running?)
  }
}
