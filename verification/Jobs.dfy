/**
 * The Jobs the operator reads, starts and deletes, as the API server holds them.
 *
 * Five kinds of Job share the bundled Postgres. A Job is deleted with background
 * propagation: it is marked first (`deleting`) and gone later. The lists the operator
 * makes leave out what is being deleted and what another owns.
 */
module Jobs {
  import opened Basics

  /** A Job's name; the API server lists Jobs in the order of their names. */
  type Name = nat

  datatype Volume = EmptyDir | Claim(name: string)

  datatype Trigger = NoTrigger | ByUpdate | ByRequest

  /**
   * What a Job is for, with the annotations the operator wrote on it.
   *
   * `began`, `held`, `stopped` and `quiet` are history, written when the Job is made and
   * read by no decision: how many writes were committed when a copy began and which of
   * them the database held, which Deployments a restore had stopped, and whether
   * no backup could be scheduled any more once the pass that made it was over.
   */
  datatype Purpose =
    | CopyJob(source: Volume, target: Volume, began: nat, held: set<nat>)
    | RestoreJob(dump: string, stopped: set<string>, quiet: bool)
    | RealmJob(realmFingerprint: string)
    | VerifyJob(trigger: Trigger, fingerprint: string, version: string, request: string)
    | BackupJob

  datatype Outcome = Unfinished | Complete(at: Time) | Failed(at: Time)

  datatype Job = Job(purpose: Purpose, created: Time, outcome: Outcome, ours: bool, deleting: bool)

  type Table = map<Name, Job>

  predicate Live(j: Job) {
    j.ours && !j.deleting
  }

  /** A Job of this Zaentrum that the operator may still wait for. */
  predicate InFlight(j: Job) {
    Live(j) && j.outcome.Unfinished?
  }

  function Made(purpose: Purpose, now: Time): Job {
    Job(purpose, now, Unfinished, true, false)
  }

  // ---- the lists (each leaves out what is being deleted, unless it says so) ----

  function Copies(jobs: Table, source: Volume, target: Volume): set<Name> {
    set n | n in jobs && Live(jobs[n]) && jobs[n].purpose.CopyJob?
            && jobs[n].purpose.source == source && jobs[n].purpose.target == target
  }

  function RealmRuns(jobs: Table): set<Name> {
    set n | n in jobs && Live(jobs[n]) && jobs[n].purpose.RealmJob?
  }

  function VerifyRuns(jobs: Table): set<Name> {
    set n | n in jobs && Live(jobs[n]) && jobs[n].purpose.VerifyJob?
  }

  /** Backups belong to their CronJob, so no owner is asked for. */
  function Backups(jobs: Table): set<Name> {
    set n | n in jobs && !jobs[n].deleting && jobs[n].purpose.BackupJob?
  }

  /** Every restore Job of this Zaentrum, those being deleted too. */
  function AllRestores(jobs: Table): set<Name> {
    set n | n in jobs && jobs[n].ours && jobs[n].purpose.RestoreJob?
  }

  /** Every verification Job of this Zaentrum, those being deleted too. */
  function AllVerifyRuns(jobs: Table): set<Name> {
    set n | n in jobs && jobs[n].ours && jobs[n].purpose.VerifyJob?
  }

  function Running(jobs: Table, names: set<Name>): set<Name>
    requires names <= jobs.Keys
  {
    set n | n in names && jobs[n].outcome.Unfinished?
  }

  /** Before in a list sorted newest first, stable over the API server's order. */
  predicate Before(jobs: Table, n: Name, m: Name)
    requires n in jobs && m in jobs
  {
    jobs[m].created < jobs[n].created || (jobs[m].created == jobs[n].created && n <= m)
  }

  /** The first of a list sorted newest first. */
  ghost function Newest(jobs: Table, names: set<Name>): (n: Name)
    requires names != {} && names <= jobs.Keys
    ensures n in names && forall m | m in names :: Before(jobs, n, m)
  {
    var x :| x in names;
    var others := names - {x};
    assert forall m | m in names :: m == x || m in others;
    if others == {} then x else
      var y := Newest(jobs, others);
      if Before(jobs, x, y) then x else y
  }

  /** Background deletion of the named Jobs. */
  function Delete(jobs: Table, names: set<Name>): Table {
    map n | n in jobs :: if n in names then jobs[n].(deleting := true) else jobs[n]
  }

  datatype Kind = CopyKind | RestoreKind | RealmKind | VerifyKind | BackupKind

  function KindOf(j: Job): Kind {
    match j.purpose
    case CopyJob(_, _, _, _) => CopyKind
    case RestoreJob(_, _, _) => RestoreKind
    case RealmJob(_) => RealmKind
    case VerifyJob(_, _, _, _) => VerifyKind
    case BackupJob => BackupKind
  }

  /**
   * What one operation may do to the table: keep a Job, mark one of ours deleted if its
   * kind is in `marked`, or make one of a kind in `made`.
   */
  ghost predicate Touches(jobs: Table, jobs': Table, made: set<Kind>, marked: set<Kind>) {
    && (forall n | n in jobs :: n in jobs' &&
          (jobs'[n] == jobs[n] ||
           (jobs[n].ours && KindOf(jobs[n]) in marked && jobs'[n] == jobs[n].(deleting := true))))
    && (forall n | n in jobs' && n !in jobs :: KindOf(jobs'[n]) in made && InFlight(jobs'[n]))
  }

  lemma TouchesTransitive(a: Table, b: Table, c: Table, made: set<Kind>, marked: set<Kind>,
                          made': set<Kind>, marked': set<Kind>)
    requires Touches(a, b, made, marked) && Touches(b, c, made', marked') && made !! marked'
    ensures Touches(a, c, made + made', marked + marked')
  {
  }

  lemma TouchesMore(a: Table, b: Table, made: set<Kind>, marked: set<Kind>, made': set<Kind>, marked': set<Kind>)
    requires Touches(a, b, made, marked) && made <= made' && marked <= marked'
    ensures Touches(a, b, made', marked')
  {
  }
}
