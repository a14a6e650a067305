/**
 * The volume under the bundled Postgres, and its move to another, which only a copy allows.
 */
module Database {
  import opened Basics
  import opened Jobs

  /** A copy older than this is no longer switched to. */
  const SWITCH_WINDOW: Time := 300

  /** The Postgres Deployment as the API server has it. */
  datatype Postgres = Missing | Strange | On(volume: Volume)

  datatype Spec = Spec(bundled: bool, claim: Volume, migrate: bool)

  /** How the API server answers this pass. */
  datatype Api = Api(read: bool, listed: bool, available: bool, deletable: set<Name>,
                     hook: bool, creates: bool, name: Name)

  datatype Plan = Plan(volume: Option<Volume>, migrate: bool, start: bool, copying: bool, switching: bool)

  datatype Decision = Unknown | Decided(plan: Plan, jobs: Table)

  function Stay(volume: Volume): Plan {
    Plan(Some(volume), false, false, false, false)
  }

  /** What a pass settles about the bundled Postgres, and the Jobs left then. */
  ghost function PlanDatabase(spec: Spec, postgres: Postgres, jobs: Table, now: Time, api: Api): Decision {
    if !spec.bundled then Decided(Plan(None, false, false, false, false), jobs)
    else if !api.read then Unknown
    else match postgres
      case Missing => Decided(Stay(spec.claim), jobs)
      case Strange => Unknown
      case On(live) =>
        if live == spec.claim then Decided(Stay(spec.claim), jobs)
        else if !spec.migrate then Decided(Stay(live), jobs)
        else if !api.listed then Unknown
        else
          var copies := Copies(jobs, live, spec.claim);
          var again := Plan(Some(live), true, api.available, true, false);
          if copies == {} then Decided(again, jobs)
          else
            var latest := Newest(jobs, copies);
            match jobs[latest].outcome
            case Unfinished => Decided(Plan(Some(live), true, false, true, false), jobs)
            case Failed(_) => Decided(Stay(live), jobs)
            case Complete(at) =>
              if now - at <= SWITCH_WINDOW then
                Decided(Plan(Some(spec.claim), false, false, true, true), jobs)
              else if latest in api.deletable then Decided(again, Delete(jobs, {latest}))
              else Unknown
  }

  /** Makes the Job that copies, out of the `commits` writes so far, those that are `held`. */
  function StartCopy(volume: Volume, claim: Volume, commits: nat, held: set<nat>, jobs: Table, now: Time, api: Api): Table {
    if api.hook && api.creates && api.name !in jobs
    then jobs[api.name := Made(CopyJob(volume, claim, commits, held), now)]
    else jobs
  }
}
