/**
 * A dump put back into the bundled Postgres: its clients stop, a Job runs, a result remains.
 */
module Restore {
  import opened Basics
  import opened Jobs

  datatype Result = Stopping | Running | Succeeded | Failed | Refused

  /** status.backup.restore, its message left out. */
  datatype Status = Status(request: string, result: Result, job: Option<Name>,
                           startedAt: Time, finishedAt: Option<Time>)

  datatype Claim = Present | Absent | Unread

  datatype Api = Api(unlisted: set<string>, backupsListed: bool, claim: Claim, hook: bool,
                     deletable: set<Name>, creates: bool, name: Name,
                     jobRead: bool, podsRead: bool, refused: bool, realmListed: bool)

  // ---- the request ----

  predicate Digit(c: char) {
    '0' <= c <= '9'
  }

  const DUMP_SHAPE := "dddd-dd-ddTdd-dd-ddZ"

  predicate IsDump(s: string) {
    && |s| == |DUMP_SHAPE|
    && forall i | 0 <= i < |s| :: if DUMP_SHAPE[i] == 'd' then Digit(s[i]) else s[i] == DUMP_SHAPE[i]
  }

  /** The dump a request names: its first twenty characters, then nothing or "#" and more of the line. */
  function DumpOf(request: string): Option<string> {
    var n := |DUMP_SHAPE|;
    if |request| >= n && IsDump(request[..n])
       && (|request| == n || (request[n] == '#' && '\n' !in request[n..]))
    then Some(request[..n])
    else None
  }

  /** A request names a dump if and only if it is the dump, or the dump and a "#" and more of the line. */
  lemma NamesDump(request: string, dump: string)
    ensures DumpOf(request) == Some(dump) <==>
            IsDump(dump) && (request == dump || exists rest :: '\n' !in rest && request == dump + "#" + rest)
  {
    var n := |DUMP_SHAPE|;
    if DumpOf(request) == Some(dump) && request != dump {
      assert request == dump + "#" + request[n + 1..];
    }
    if request == dump { assert request[..|request|] == request; }
    if IsDump(dump) && request != dump {
      if rest :| '\n' !in rest && request == dump + "#" + rest {
        assert request[..n] == dump && request[n..] == "#" + rest;
        assert request[n] == '#' && '\n' !in "#" + rest;
      }
    }
  }

  /** The dump of the restore in flight, if one is. */
  function InProgress(restore: Option<Status>): Option<string> {
    if restore.Some? && (restore.value.result.Stopping? || restore.value.result.Running?)
    then DumpOf(restore.value.request)
    else None
  }

  datatype Planned = Planned(restore: Option<Status>, dump: Option<string>)

  /** Decides, ahead of the render, which dump this pass is about, if any. */
  function PlanRestore(bundled: bool, request: string, restore: Option<Status>, copying: bool, now: Time): Planned {
    var refused := Planned(Some(Status(request, Refused, None, now, Some(now))), None);
    if InProgress(restore).Some? then Planned(restore, InProgress(restore))
    else if request == "" || (restore.Some? && restore.value.request == request) then Planned(restore, None)
    else if !bundled then refused
    else if DumpOf(request).None? then refused
    else if copying then Planned(restore, None)
    else Planned(Some(Status(request, Stopping, None, now, None)), DumpOf(request))
  }

  // ---- the step after the apply ----

  function PodsOf(pods: map<string, nat>, d: string): nat {
    if d in pods then pods[d] else 0
  }

  /** The Deployments the render stopped. */
  function Stopped(render: map<string, nat>): set<string> {
    set d | d in render && render[d] == 0
  }

  /** Those of them that still have a pod, or whose pods could not be listed. */
  function ClientsUp(render: map<string, nat>, pods: map<string, nat>, api: Api): set<string> {
    set d | d in Stopped(render) && (PodsOf(pods, d) > 0 || d in api.unlisted)
  }

  datatype Stepped = Stepped(restore: Option<Status>, jobs: Table, inFlight: bool)

  function End(rs: Status, result: Result, jobs: Table, now: Time, api: Api): Stepped {
    var ended := rs.(result := result, finishedAt := Some(now));
    var jobs' := if result == Succeeded && api.realmListed
                 then Delete(jobs, RealmRuns(jobs) * api.deletable) else jobs;
    Stepped(Some(ended), jobs', false)
  }

  /** The Stopping step: start the Job once every client is down and no backup runs. */
  function StepStopping(rs: Status, dump: string, jobs: Table, pods: map<string, nat>,
                        render: map<string, nat>, scheduled: bool, now: Time, api: Api): Stepped {
    var wait := Stepped(Some(rs), jobs, true);
    if ClientsUp(render, pods, api) != {} then wait
    else if !api.backupsListed || Jobs.Running(jobs, Backups(jobs)) != {} || api.claim.Unread? then wait
    else if api.claim.Absent? || !api.hook then End(rs, Refused, jobs, now, api)
    else
      var left := Delete(jobs, AllRestores(jobs) * api.deletable);
      if !(AllRestores(jobs) <= api.deletable) then Stepped(Some(rs), left, true)
      else if !api.creates || api.name in left then End(rs, Result.Failed, left, now, api)
      else
        var job := Made(RestoreJob(dump, Stopped(render), !scheduled), now);
        Stepped(Some(rs.(result := Running, job := Some(api.name))), left[api.name := job], true)
  }

  /** The Running step: read the Job's result. */
  function StepRunning(rs: Status, jobs: Table, now: Time, api: Api): Stepped {
    var wait := Stepped(Some(rs), jobs, true);
    if rs.job.Some? && !api.jobRead then wait
    else if rs.job.None? || rs.job.value !in jobs then End(rs, Result.Failed, jobs, now, api)
    else if !api.podsRead then wait
    else match jobs[rs.job.value].outcome
      case Unfinished => wait
      case Complete(_) => End(rs, Succeeded, jobs, now, api)
      case Failed(_) => End(rs, if api.refused then Refused else Result.Failed, jobs, now, api)
  }

  /** `scheduled` says whether a CronJob may still start a backup once the pass is over. */
  function StepRestore(restore: Option<Status>, jobs: Table, pods: map<string, nat>,
                       render: map<string, nat>, scheduled: bool, now: Time, api: Api): Stepped {
    var dump := InProgress(restore);
    if dump.None? then Stepped(restore, jobs, false)
    else if restore.value.result.Stopping? then
      StepStopping(restore.value, dump.value, jobs, pods, render, scheduled, now, api)
    else StepRunning(restore.value, jobs, now, api)
  }
}
