/**
 * One reconcile pass over the cluster, and the runs it takes part in.
 *
 * A pass reads the Zaentrum and the Jobs, decides, applies, starts Jobs and writes
 * status. Between passes the cluster moves by itself: Jobs end and go, pods come and
 * go, the database is written, time passes. The spec and the annotations come with
 * each pass, as people may change them before any.
 */
module Platform {
  import opened Basics
  import opened Jobs
  import D = Database
  import R = Restore
  import K = RealmRun
  import V = Verification

  const KEYCLOAK := "keycloak"

  datatype Status = Status(restore: Option<R.Status>, verification: Option<V.Status>)

  /**
   * The cluster. `replicas` are the applied Deployments but the Postgres, `scheduled`
   * says whether a CronJob may start a backup, `contents` what each volume's database
   * holds of the writes committed so far.
   *
   * The rest is history: the restore Jobs made since status took up its restore request,
   * and how many writes were committed when the copy switched to began (`copiedAt`) and
   * when the Postgres switched (`switchedAt`).
   */
  datatype State = State(
    now: Time, jobs: Table, postgres: D.Postgres,
    contents: map<Volume, set<nat>>, commits: nat,
    replicas: map<string, nat>, pods: map<string, nat>, scheduled: bool,
    status: Status, restoreJobs: nat, copiedAt: nat, switchedAt: nat)

  /**
   * What people and the chart decide: the Deployments with their replicas, which of them
   * are clients of the database, whether the backups' CronJob is rendered, the realm
   * Job's fingerprint when it is, the platform's fingerprint and version.
   */
  datatype Spec = Spec(
    database: D.Spec, verification: bool, restoreRequest: string, verifyRequest: string,
    deployments: map<string, nat>, clients: set<string>, backups: bool,
    realm: Option<string>, fingerprint: string, version: string)

  /** Where a pass breaks off, if it does; StatusWrite loses its last write alone. */
  datatype Fault = NoFault | Deferred | Certificate | Render | Secrets | Switch | Apply | Components | StatusWrite

  /**
   * How the cluster answers a pass. `reached` are the objects an apply that breaks off got
   * to, `noted` says whether the status write of a pass that broke off comes through.
   */
  datatype Api = Api(
    fault: Fault, database: D.Api, restore: R.Api, realm: K.Api, verification: V.Api,
    reached: set<string>, reachedPostgres: bool, reachedCron: bool,
    unpruned: set<string>, cronPruned: bool, cronRemoved: bool,
    available: map<string, nat>, stalled: set<string>, postgresReady: bool,
    keycloakObserved: bool, keycloakUpdated: nat, noted: bool)

  function Content(contents: map<Volume, set<nat>>, v: Volume): set<nat> {
    if v in contents then contents[v] else {}
  }

  /** What the running database holds. */
  function Served(s: State): set<nat> {
    if s.postgres.On? then Content(s.contents, s.postgres.volume) else {}
  }

  // ---- the render and the apply ----

  predicate Stops(spec: Spec, dump: Option<string>) {
    dump.Some? && spec.database.bundled
  }

  function Rendered(spec: Spec, dump: Option<string>): map<string, nat> {
    map d | d in spec.deployments :: if Stops(spec, dump) && d in spec.clients then 0 else spec.deployments[d]
  }

  /** A whole apply, and the prune of what is rendered no longer. */
  function ApplyAll(s: State, spec: Spec, volume: Option<Volume>, dump: Option<string>, api: Api): State {
    s.(postgres := if volume.Some? then D.On(volume.value) else s.postgres,
       replicas := (map d | d in s.replicas && d in api.unpruned :: s.replicas[d]) + Rendered(spec, dump),
       scheduled := if spec.backups then !Stops(spec, dump) else s.scheduled && !api.cronPruned)
  }

  /** An apply that broke off: some objects are as rendered, the others as before. */
  function ApplySome(s: State, spec: Spec, volume: Option<Volume>, dump: Option<string>, api: Api): State {
    var render := Rendered(spec, dump);
    s.(postgres := if volume.Some? && api.reachedPostgres then D.On(volume.value) else s.postgres,
       replicas := s.replicas + (map d | d in render && d in api.reached :: render[d]),
       scheduled := if spec.backups && api.reachedCron then !Stops(spec, dump) else s.scheduled)
  }

  /** How many replicas a Deployment is rendered with while a dump is restored, or none is. */
  function ReplicasOf(spec: Spec, restoring: bool, d: string): nat
    requires d in spec.deployments
  {
    if restoring && spec.database.bundled && d in spec.clients then 0 else spec.deployments[d]
  }

  /** A whole apply leaves what is rendered, and of the rest what could not be pruned. */
  lemma AppliedIs(s: State, spec: Spec, volume: Option<Volume>, dump: Option<string>, api: Api)
    ensures var after := ApplyAll(s, spec, volume, dump, api);
            && (forall d | d in spec.deployments :: d in after.replicas && after.replicas[d] == ReplicasOf(spec, dump.Some?, d))
            && (forall d | d !in spec.deployments :: d in after.replicas <==> d in s.replicas && d in api.unpruned)
            && (forall d | d !in spec.deployments && d in after.replicas :: after.replicas[d] == s.replicas[d])
            && (after.scheduled <==> if spec.backups then dump.None? || !spec.database.bundled else s.scheduled && !api.cronPruned)
            && after.postgres == (if volume.Some? then D.On(volume.value) else s.postgres)
  {
  }

  /** One that breaks off leaves the same of what it got to, and the rest as it was. */
  lemma PartlyAppliedIs(s: State, spec: Spec, volume: Option<Volume>, dump: Option<string>, api: Api)
    ensures var after := ApplySome(s, spec, volume, dump, api);
            && (forall d | d in spec.deployments && d in api.reached :: d in after.replicas && after.replicas[d] == ReplicasOf(spec, dump.Some?, d))
            && (forall d | d !in spec.deployments || d !in api.reached :: d in after.replicas <==> d in s.replicas)
            && (forall d | (d !in spec.deployments || d !in api.reached) && d in after.replicas :: after.replicas[d] == s.replicas[d])
            && (after.scheduled <==> if spec.backups && api.reachedCron then dump.None? || !spec.database.bundled else s.scheduled)
            && after.postgres == (if volume.Some? && api.reachedPostgres then D.On(volume.value) else s.postgres)
  {
  }

  function Available(api: Api, d: string): nat {
    if d in api.available then api.available[d] else 0
  }

  /** Every rendered Deployment is up, and none has stalled. */
  predicate AllReady(replicas: map<string, nat>, render: map<string, nat>, api: Api) {
    api.postgresReady &&
    forall d | d in render ::
      d in replicas && 0 < replicas[d] <= Available(api, d) && d !in api.stalled
  }

  function KeycloakSeen(replicas: map<string, nat>, render: map<string, nat>, api: Api): K.Keycloak {
    if KEYCLOAK in render && KEYCLOAK in replicas
    then K.Keycloak(replicas[KEYCLOAK], api.keycloakObserved, api.keycloakUpdated, Available(api, KEYCLOAK))
    else K.NoKeycloak
  }

  // ---- the pass ----

  /** The Jobs after the copy the pass may start. */
  ghost function JobsCopied(s: State, spec: Spec, plan: D.Plan, dump: Option<string>, api: Api): Table {
    if plan.start && dump.None? && plan.volume.Some?
    then D.StartCopy(plan.volume.value, spec.database.claim, s.commits, Served(s), s.jobs, s.now, api.database)
    else s.jobs
  }

  /** Whether a backup may still start once the schedule of backups turned off was to be removed. */
  predicate StillScheduled(s: State, spec: Spec, api: Api) {
    s.scheduled && (spec.backups || !api.cronRemoved)
  }

  ghost function StepRestore(s: State, spec: Spec, plan: D.Plan, planned: R.Planned, api: Api): R.Stepped {
    R.StepRestore(planned.restore, JobsCopied(s, spec, plan, planned.dump, api), s.pods,
                  Rendered(spec, planned.dump), StillScheduled(s, spec, api), s.now, api.restore)
  }

  ghost function ConfigureRealm(s: State, spec: Spec, plan: D.Plan, planned: R.Planned, stepped: R.Stepped, api: Api): K.Configured {
    K.ConfigureRealm(spec.realm, stepped.jobs, KeycloakSeen(s.replicas, Rendered(spec, planned.dump), api),
                     plan.copying || stepped.inFlight, V.IsRunning(s.status.verification), s.now, api.realm)
  }

  function Asked(spec: Spec): V.Ask {
    V.Ask(spec.verifyRequest, spec.fingerprint, spec.version)
  }

  ghost function Verify(s: State, spec: Spec, plan: D.Plan, planned: R.Planned, stepped: R.Stepped,
                        configured: K.Configured, api: Api): V.Verified {
    var ready := AllReady(s.replicas, Rendered(spec, planned.dump), api)
                 && !configured.soon && !plan.copying && !stepped.inFlight;
    V.Step(spec.verification, s.status.verification, configured.jobs, Asked(spec), ready, s.now, api.verification)
  }

  /** Whether the pass took up a new restore request. */
  predicate TookUp(before: Option<R.Status>, planned: R.Planned) {
    planned.restore != before
  }

  function Tally(s: State, planned: R.Planned, stepped: R.Stepped, jobs: Table, written: bool): nat {
    (if TookUp(s.status.restore, planned) && written then 0 else s.restoreJobs)
    + (if jobs.Keys < stepped.jobs.Keys then 1 else 0)
  }

  /** The rest of a pass whose apply went through, `s` being the cluster just applied. */
  ghost function Finish(s: State, spec: Spec, plan: D.Plan, planned: R.Planned, api: Api): State {
    var copied := JobsCopied(s, spec, plan, planned.dump, api);
    var stepped := StepRestore(s, spec, plan, planned, api);
    var written := !api.fault.Components? && !api.fault.StatusWrite?;
    var s' := s.(jobs := stepped.jobs,
                 scheduled := StillScheduled(s, spec, api),
                 restoreJobs := Tally(s, planned, stepped, copied, written));
    if api.fault.Components? then s'
    else
      var configured := ConfigureRealm(s, spec, plan, planned, stepped, api);
      var verified := Verify(s, spec, plan, planned, stepped, configured, api);
      s'.(jobs := verified.jobs,
          status := if written then Status(stepped.restore, verified.status) else s.status)
  }

  /** What is left of a pass that breaks off by the end of its apply: its restore decision, if that write comes through. */
  function Noted(s: State, planned: R.Planned, written: bool): State {
    if !written then s
    else s.(status := s.status.(restore := planned.restore),
       restoreJobs := if TookUp(s.status.restore, planned) then 0 else s.restoreJobs)
  }

  function PlanRestore(s: State, spec: Spec, plan: D.Plan): R.Planned {
    R.PlanRestore(spec.database.bundled, spec.restoreRequest, s.status.restore, plan.copying, s.now)
  }

  /** The switch of the Postgres onto its claim, when the plan says so. */
  ghost function Switched(s: State, plan: D.Plan): State {
    if plan.switching && plan.volume.Some? && s.postgres.On? then
      var copies := Copies(s.jobs, s.postgres.volume, plan.volume.value);
      s.(postgres := D.On(plan.volume.value), switchedAt := s.commits,
         copiedAt := if copies == {} then s.commits else s.jobs[Newest(s.jobs, copies)].purpose.began)
    else s
  }

  /** The pass once it has decided about the database. */
  ghost function CarryOut(s: State, spec: Spec, plan: D.Plan, api: Api): State {
    var planned := PlanRestore(s, spec, plan);
    if api.fault.Certificate? then s
    else if api.fault.Render? || api.fault.Secrets? || (plan.switching && api.fault.Switch?) then Noted(s, planned, api.noted)
    else if api.fault.Apply? then
      Noted(ApplySome(Switched(s, plan), spec, plan.volume, planned.dump, api), planned, api.noted)
    else Finish(ApplyAll(Switched(s, plan), spec, plan.volume, planned.dump, api), spec, plan, planned, api)
  }

  ghost function Pass(s: State, spec: Spec, api: Api): State {
    if api.fault.Deferred? then s
    else match D.PlanDatabase(spec.database, s.postgres, s.jobs, s.now, api.database)
      case Unknown => s
      case Decided(plan, jobs) => CarryOut(s.(jobs := jobs), spec, plan, api)
  }

  // ---- what the cluster does by itself ----

  datatype Event =
    | Reconcile(spec: Spec, api: Api)
    | Tick(seconds: nat)
    | Commit
    | Ends(name: Name, success: bool, data: set<nat>)
    | Gone(name: Name)
    | PodUp(deployment: string)
    | PodDown(deployment: string)
    | BackupStarts(name: Name)
    | Stranger(name: Name, job: Job)

  /**
   * A Job ends. A copy that succeeds leaves on its target all the database held when the
   * copy began, and perhaps more of what it holds now; one that fails, anything. A
   * restore leaves in the running database what its dump held.
   */
  function JobEnds(s: State, name: Name, success: bool, data: set<nat>): State
    requires name in s.jobs && s.jobs[name].outcome.Unfinished?
  {
    var j := s.jobs[name];
    var jobs := s.jobs[name := j.(outcome := if success then Complete(s.now) else Failed(s.now))];
    var contents :=
      if !j.ours then s.contents
      else match j.purpose
        case CopyJob(source, target, _, held) =>
          s.contents[target := if success then held + data * Content(s.contents, source) else data]
        case RestoreJob(_, _, _) => if s.postgres.On? then s.contents[s.postgres.volume := data] else s.contents
        case _ => s.contents;
    s.(jobs := jobs, contents := contents)
  }

  /** One event; one that cannot happen now changes nothing. */
  ghost function Do(s: State, e: Event): State {
    match e
    case Reconcile(spec, api) => Pass(s, spec, api)
    case Tick(seconds) => s.(now := s.now + seconds)
    case Commit =>
      if s.postgres.On? then
        s.(contents := s.contents[s.postgres.volume := Served(s) + {s.commits}], commits := s.commits + 1)
      else s
    case Ends(name, success, data) =>
      if name in s.jobs && s.jobs[name].outcome.Unfinished? then JobEnds(s, name, success, data) else s
    case Gone(name) =>
      if name in s.jobs && (s.jobs[name].deleting || !s.jobs[name].outcome.Unfinished?)
      then s.(jobs := s.jobs - {name}) else s
    case PodUp(d) =>
      if d in s.replicas && s.replicas[d] > 0 then s.(pods := s.pods[d := R.PodsOf(s.pods, d) + 1]) else s
    case PodDown(d) =>
      if R.PodsOf(s.pods, d) > 0 then s.(pods := s.pods[d := R.PodsOf(s.pods, d) - 1]) else s
    case BackupStarts(name) =>
      if s.scheduled && name !in s.jobs
      then s.(jobs := s.jobs[name := Job(BackupJob, s.now, Unfinished, false, false)]) else s
    case Stranger(name, job) =>
      if name !in s.jobs && !job.ours
      then s.(jobs := s.jobs[name := job]) else s
  }

  ghost function Run(s: State, events: seq<Event>): State
    decreases |events|
  {
    if events == [] then s else Run(Do(s, events[0]), events[1..])
  }
}
